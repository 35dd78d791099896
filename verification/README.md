# Learner dashboard session model

A Dafny model of the session state kept by the learner dashboard component
(`components/individual-dashboard.tsx`, lines 109-500). The dashboard shows
four stores: learning paths with their average progress, job recommendations,
a snapshot of live opportunities, and an assistant chat transcript. Beside
them it keeps an activity log, newest entry first. The model covers every
handler that changes these stores:

- adding a learning path from the dialog;
- advancing a path ("Continue");
- applying to a job;
- sending a question to the assistant;
- refreshing live opportunities;
- the refresh pass over paths, recommendations and stats, including its fallback;
- the log entry written after logout.

Not every handler is reachable from the component as rendered. The
Logout button (line 533) calls the auth provider's `logout` directly, and
nothing in the markup calls `handleLogout`, `handleSendMessage`,
`handleJobApply` or `setNewMessage`. So the "Logged out", `job_applied`
and `ai_interaction` entries are never written from the shipped UI, and
`Session.Logout`, `Session.SendMessage`, `Session.ApplyToJob` and
`Session.EditMessage` model handlers that the component defines but does
not call.

Layout, one module per file:

- `js_text.dfy` (`JsText`): the JavaScript string operations the handlers
  use. These are `trim`, `toLowerCase`, `includes`, and `toString` of a
  `Date.now()` reading.
- `records.dfy` (`Records`): the record types the component declares. It also
  holds `Response<T>`, the four ways a request can settle: OK with a body,
  non-OK, body unreadable, and fetch rejected.
- `learning_paths.dfy` (`LearningPaths`): the per-path transforms, the
  rounded average, the new path and the fallback path.
- `jobs.dfy` (`Jobs`): the job-type derivation, the apply updater and the
  lookup.
- `assistant.dfy` (`Assistant`): the transcript turns, the offline reply and
  the quoted question in the log.
- `dashboard.dfy` (`Dashboard`): class `Session`. It has one field per piece
  of component state and one method per handler. Network outcomes, clock
  readings and the signed-in flag are parameters.
- `scenarios.dfy` (`Scenarios`): client methods that drive a fresh session
  through a few typical uses of the dashboard. Each proves its result from
  `Session`'s contracts and the module lemmas.

Where the code departs from what a reader of the dashboard might expect, the
model follows the code:

- The average of an empty path list is `NaN`. Line 425 divides by the list
  length without a guard, where one might expect 0. `Average = Mean(n) | NaN`
  keeps this case visible.
- Only a thrown error installs the fallback path. A non-OK paths response
  leaves the paths unchanged (lines 414, 459-477).
- Advancing logs a completion whenever the new progress is 100. That includes
  a path that was already at 100, not only the step into completion
  (line 357).
- Applying again re-stamps `appliedAt` (line 327).
- An OK opportunities response is stored exactly as sent (line 184).
- An invalid add-path form only shows a toast and changes nothing (line 204).
  There is no error value.

## Model

| member | source | states |
|---|---|---|
| JsText.TrimStartSpec | components/individual-dashboard.tsx:204 | trimming the start removes exactly the longest all-whitespace prefix |
| JsText.TrimEndSpec | components/individual-dashboard.tsx:204 | trimming the end removes exactly the longest all-whitespace suffix |
| JsText.TrimSpec | components/individual-dashboard.tsx:256 | `trim()` yields the slice between the leading and trailing whitespace; that slice neither starts nor ends with whitespace |
| JsText.BlankIffAllWhitespace | components/individual-dashboard.tsx:238 | `!s.trim()` holds exactly when every character of s is whitespace, so the empty string and whitespace-only input are the blank ones |
| JsText.ToLowerNormalises | components/individual-dashboard.tsx:434 | `toLowerCase()` leaves no ASCII capital behind, and lowering a lowered string changes nothing |
| JsText.Includes | components/individual-dashboard.tsx:434 | `includes(pat)` is true exactly when pat occurs at some position of the string |
| JsText.DigitChar | components/individual-dashboard.tsx:147 | a digit's character is the one whose code is that far from '0' |
| JsText.DecimalString | components/individual-dashboard.tsx:147 | `toString()` of a clock reading is non-empty; it has a leading zero only for 0, and one digit exactly below 10 |
| JsText.DecimalStringInjective | components/individual-dashboard.tsx:147 | distinct clock readings give distinct id strings |
| LearningPaths.StatusOf | components/individual-dashboard.tsx:416-420 | derived status: not_started exactly at 0, completed exactly at 100, in_progress otherwise |
| LearningPaths.FormatPaths | components/individual-dashboard.tsx:416-421 | a refreshed list keeps length, order and every field except the status, which is derived from the progress; percentages in range give a consistent list |
| LearningPaths.NextProgress | components/individual-dashboard.tsx:354 | `Math.min(p + 10, 100)`: never above 100, p + 10 up to 90, and 100 from 90 on |
| LearningPaths.Advanced | components/individual-dashboard.tsx:353-375 | an advanced path gets the capped progress; it is completed exactly at 100 and otherwise in progress, never not-started; lastAccessed is stamped and nothing else changes |
| LearningPaths.AdvancePaths | components/individual-dashboard.tsx:352-378 | the "Continue" updater keeps length and order, advances every path with the id, leaves every other path as it was, and preserves status consistency |
| LearningPaths.CompletedEntry | components/individual-dashboard.tsx:358-366 | the completion entry is of type course_completed and reads "Finished <title>" |
| LearningPaths.CompletionEntries | components/individual-dashboard.tsx:357-368 | the entries one click puts on top of the log are all course_completed, at most one per path |
| LearningPaths.AdvanceUnknownId | components/individual-dashboard.tsx:352-378 | for an id no path has, no path changes and nothing is logged |
| LearningPaths.CompletionOfUniquePath | components/individual-dashboard.tsx:353-368 | with unique ids, one click logs exactly one "Finished <title>" entry when the path ends at 100, also when it was already at 100, and none otherwise |
| LearningPaths.AdvancedTimes | components/individual-dashboard.tsx:351-378 | repeated clicks leave id and title alone |
| LearningPaths.RepeatedAdvance | components/individual-dashboard.tsx:354-355 | after k clicks the progress is min(p + 10k, 100), so it never passes 100, and the path is completed exactly when at 100; a starting value above 100 (not validated at line 416) is capped by the first click |
| LearningPaths.SumProgressBounds | components/individual-dashboard.tsx:425 | the reduced sum of n percentages lies between 0 and 100n |
| LearningPaths.RoundQuotient | components/individual-dashboard.tsx:424-426 | `Math.round(s / n)` is the integer nearest s/n, with halves rounded up |
| LearningPaths.AverageProgress | components/individual-dashboard.tsx:424-427 | the average is NaN exactly for the empty list, otherwise the rounded mean of the progress values |
| LearningPaths.AverageIsPercentage | components/individual-dashboard.tsx:424-427 | the average of a non-empty list of percentages is a percentage |
| LearningPaths.NewPath | components/individual-dashboard.tsx:213-223 | a new path has progress 0, status not_started, no skills, estimate "8-12 weeks", and the form's title, description and difficulty |
| LearningPaths.FallbackAgrees | components/individual-dashboard.tsx:463-477 | the fallback path is consistent, and the average of 35 set beside it is its own average |
| Jobs.InternshipIffCaseInsensitive | components/individual-dashboard.tsx:434 | the internship test is a case-insensitive match: a title counts exactly when "intern" occurs in it with each letter in either case, stated without reference to lowering |
| Jobs.IsInternshipTitle | components/individual-dashboard.tsx:434 | a title marks an internship exactly when its lower-cased form contains "intern" |
| Jobs.FormatJobs | components/individual-dashboard.tsx:432-436 | refreshed recommendations keep length, order and every field except the type, which is internship exactly for "intern" titles |
| Jobs.MarkApplied | components/individual-dashboard.tsx:325-329 | the apply updater keeps length and order; each job with the id becomes applied with appliedAt re-stamped and is otherwise unchanged; other jobs stay as they were; an unknown id changes nothing; applied-iff-stamped is preserved |
| Jobs.FindById | components/individual-dashboard.tsx:331 | `find` gives nothing exactly when no job has the id, else the first job with the id |
| Jobs.AppliedEntry | components/individual-dashboard.tsx:333-341 | the application entry is of type job_applied and reads "Applied to <title> at <company>" |
| Assistant.AskedDescription | components/individual-dashboard.tsx:256 | the log quotes the trimmed question after `Asked: "`; a question of at most 50 characters is quoted whole, a longer one is cut to its first 50 characters followed by `..."` |
| Assistant.AskedEntry | components/individual-dashboard.tsx:252-260 | the question's entry is of type ai_interaction and carries that description |
| Assistant.UserTurn | components/individual-dashboard.tsx:240-245 | the user's turn carries the draft untrimmed, with the user role |
| Assistant.AssistantTurn | components/individual-dashboard.tsx:286-312 | the assistant's turn is the reply verbatim when the endpoint answered, and the fixed offline text on any failure; its id is the clock reading plus one |
| Assistant.TurnIdsDiffer | components/individual-dashboard.tsx:240-291 | the question's id and the reply's id coincide exactly when the clock read for the reply is 1 ms behind the one read for the question; with a clock that does not step back they never coincide |
| Dashboard.LogoutEntry | components/individual-dashboard.tsx:146-154 | the logout entry is of type login, titled "Logged out" |
| Dashboard.LoginEntry | components/individual-dashboard.tsx:446-456 | the refresh pass's log entry has id "1", type login and reads "Logged in at <time>" |
| Dashboard.Session.constructor | components/individual-dashboard.tsx:111-140 | the mount state: empty stores, score 85, average 0, one seeded greeting, an empty snapshot, an empty form with difficulty "Beginner" |
| Dashboard.Session.Logout | components/individual-dashboard.tsx:142-168 | after a successful logout one entry is prepended; after a failed one the log is unchanged |
| Dashboard.Session.FetchLiveOpportunities | components/individual-dashboard.tsx:170-201 | an OK response replaces the whole snapshot; non-OK, thrown or signed-out leaves all four parts as they were; the loading flag ends false |
| Dashboard.Session.EditAddPathForm | components/individual-dashboard.tsx:1057-1076 | the dialog's inputs set title, description and difficulty |
| Dashboard.Session.SetAddPathDialog | components/individual-dashboard.tsx:1046 | the dialog's open flag is whatever the "Add Learning Path" button (line 696), the dialog's open-change callback or its Cancel button (line 1096) set |
| Dashboard.Session.AddLearningPath | components/individual-dashboard.tsx:203-235 | a blank title or description changes nothing; otherwise exactly one new path is appended at the end, the dialog closes and the form resets; status consistency is preserved |
| Dashboard.Session.EditMessage | components/individual-dashboard.tsx:125 | the draft setter sets the draft |
| Dashboard.Session.SendMessage | components/individual-dashboard.tsx:237-322 | a blank draft changes nothing; otherwise the transcript grows by exactly the user turn then one assistant turn, the draft clears, one ai_interaction entry is prepended, and nothing stays loading |
| Dashboard.Session.ApplyToJob | components/individual-dashboard.tsx:324-349 | recommendations become MarkApplied of the old ones; one job_applied entry for the first match is prepended, none for an unknown id |
| Dashboard.Session.ContinueLearning | components/individual-dashboard.tsx:351-384 | paths become AdvancePaths of the old ones, the completion entries go on top of the log, and status consistency is preserved |
| Dashboard.Session.RefreshDashboard | components/individual-dashboard.tsx:387-481 | signed out: nothing changes. A throw anywhere installs only the fallback path and average, keeps score and log, and keeps recommendations already replaced. A clean pass replaces what came back OK (stats override the computed average) and resets the log to one login entry. Loading ends false |
| Scenarios.FailedFirstRefresh | components/individual-dashboard.tsx:459-477 | from an empty list, a rejected paths request leaves exactly one path at 35% and an average of 35 |
| Scenarios.AddDataEngineering | components/individual-dashboard.tsx:203-229 | adding "Data Engineering" gives one not-started path with no skills, and the title field is emptied |
| Scenarios.AddBlankTitle | components/individual-dashboard.tsx:204-211 | a whitespace-only title adds nothing and keeps the form |
| Scenarios.BackendQuestionDescription | components/individual-dashboard.tsx:256 | a short question with no surrounding whitespace is quoted whole in the log |
| Scenarios.OfflineQuestion | components/individual-dashboard.tsx:237-314 | offline, the transcript ends with the question and the offline text, and the log quotes the question |
| Scenarios.StaleSnapshotKept | components/individual-dashboard.tsx:182-200 | a snapshot of 1 job, 0 internships, 2 hackathons and "T1" survives a failed refresh |
| Scenarios.FinishCourse | components/individual-dashboard.tsx:351-378 | from 95% one click completes the path and logs "Finished <title>"; a second click stays at 100 and logs again |

## Left out

- Rendering (lines 502-1107), toasts, and the icons and colours. An activity
  entry carries its icon as an enumeration and its colour class as text.
- `fetch`, bearer tokens from `localStorage`, and JSON parsing. Each response
  is an input of type `Response<T>`. A body that is missing a field and makes
  the handler throw counts as `Unreadable`.
- Missing fields that no handler dereferences. The source stores such a field
  as `undefined` and does not throw. Examples are an array absent from the
  opportunities payload (line 184, stored as sent), a missing
  `data.response` (line 289, which becomes the reply's content), and missing
  `career_score` or `average_progress` (lines 441-442). The model's body types
  always carry every field, so it cannot represent a partial payload of this
  kind. Such a payload is neither `Unreadable` (which keeps the old state) nor
  the offline reply.
- The 30-second `setInterval` refresh and its cleanup (lines 483-499). This is
  timer concurrency. `RefreshDashboard` and `FetchLiveOpportunities` each
  model one pass.
- Interleaving. The handlers are modelled as if each ran to completion alone.
  Two concurrent sends (there is no guard on `aiLoading`) are not modelled.
  Neither are the mid-request values of `aiLoading` and
  `opportunitiesLoading`.
- Clocks. Every `Date.now()`, `toISOString()` and `toLocaleTimeString()` value
  is a parameter. In `handleSendMessage` one reading stands for the two taken
  during the synchronous part (lines 241 and 253). `Date.now()` reads the wall
  clock, which may step back while the request is in flight. If it steps back
  by exactly 1 ms, the user's turn and the reply get the same id, and the
  model does not rule this out (`Assistant.TurnIdsDiffer` states when it
  happens).
- The greeting text built from the user's e-mail address (line 121) is a
  constructor parameter. The `logout()` call (line 144) is a boolean: did it
  resolve?
- The `total_count` counters of the opportunities response. They feed only a
  toast.
- `showAIAssistant`. It is presentation state.
- React's double invocation of state updaters in development strict mode.
  Under it, the completion entry logged inside the path updater would appear
  twice.
- JavaScript numbers are floating point. Progress, scores and averages are
  modelled as integers.
- `app/api/learning/free-resources/categories/route.ts` and
  `app/api/learning/folders/[folderId]/items/route.ts`: HTTP proxy routes.
  They are not part of this model.
- Assistant.AskedDescription: counts characters as Unicode code points.
  JavaScript's `substring(0, 50)` and `length` count UTF-16 code units, so the
  two differ for text outside the Basic Multilingual Plane.
- JsText.LowerChar: lowers only ASCII capitals. No other character lowers to
  a letter of "intern" on its own, so `Jobs.IsInternshipTitle` gives the same
  answer as full Unicode lowering.
