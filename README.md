# Job portal session state, in Dafny

This project models the core of a single-page job-portal demo. A session holds
a current demo user (seeker, employer or admin, or nobody after logout), a job
list, an application list and a company list. Event handlers replace those
lists with updated copies:

- apply to a job;
- post a job;
- verify a company;
- remove (moderate) a job;
- switch to the next demo role;
- log out, or get started again.

Each role's dashboard is fed with a filtered view of that state. Employers post
jobs through a form that turns comma-separated skills text into a trimmed
list. The form can also ask an external generator for a description, and
shows a busy flag while it waits.

Modules, one per file of the app or concern:

- `Types` (`types.dfy`): the entity records and enumerations.
- `Lists` (`lists.dfy`): order-preserving `filter` and first-match `find`, with their contracts.
- `Text` (`text.dfy`): ECMAScript `split` with a one-character separator, `trim` with
  ECMAScript's whitespace set, and `join`. It proves the round trips between split and join,
  and (`TrimExact`) that any cut into outer whitespace and a trimmed middle yields exactly `Trim`'s result.
- `Constants` (`constants.dfy`): the seeded companies, jobs and users.
- `PostJobModal` (`post_job_modal.dfy`): the form record and its initial value, and the
  skills parsing and draft construction. It has a class `Modal` for the form component's
  state (`formData`, `isGenerating`) and its handlers.
- `App` (`app.dfy`): the pure updaters, the lookups and the role views. It has a class
  `AppState` whose fields are the container's state and whose methods are its handlers.
  It also has three scenario methods. `ScenarioSeekerApplies` shows that after the seeded
  seeker applies to job "1", employer "e1" sees exactly that application and "e2" sees
  none. `ScenarioScoringFails` shows that an application whose scoring fell back still
  carries score 50 and "Analysis unavailable.", and is visible to the seeker and to the
  employer. `ScenarioEmptyAnswer` shows that an empty scorer reply still records a Pending
  application, with no score and no feedback.

External calls are parameters:

- The resume scorer is a function parameter `score: (string, string) -> Analysis`.
  `AnalysisUnavailable` is the value the real adapter answers with on failure. `EmptyAnalysis`
  is its answer to an empty reply, which parses as `{}`: no score, feedback or missing skills.
- The description generator is a function parameter `generate`.
- The random id and the current date are string parameters `newId` and `today`.
  Nothing guarantees that ids are fresh, and the model does not assume it.

## Model

| member | source | states |
|---|---|---|
| `Lists.Filter` | App.tsx:75 | the result holds exactly the elements of the input that pass the test, and is no longer than the input |
| `Lists.FilterAppend` | App.tsx:60 | filtering a concatenation is the concatenation of the filtered parts, so kept elements keep their relative order |
| `Lists.Find` | App.tsx:43 | `find` is None exactly when no element passes; otherwise it returns an element that passes, namely the one at the least passing index |
| `Text.Trim` | components/PostJobModal.tsx:44 | the result has no whitespace at either end and is empty exactly when the input is all whitespace |
| `Text.TrimExact` | components/PostJobModal.tsx:44 | any cut of the input into whitespace, a trimmed middle and whitespace has `Trim` equal to that middle, so trim is fully determined |
| `Text.TrimIdempotent` | components/PostJobModal.tsx:44 | trimming twice equals trimming once |
| `Text.Split` | components/PostJobModal.tsx:44 | there is one more piece than the number of separators in the input, and no piece contains the separator |
| `Text.JoinSplit` | components/PostJobModal.tsx:44 | joining the pieces of a split with the separator gives back the original string |
| `Text.SplitJoin` | components/PostJobModal.tsx:44 | splitting a join of separator-free pieces gives back the pieces |
| `Constants.SeedCompaniesDistinctAndVerified` | constants.ts:4-23 | the seeded company ids are "c1" and "c2", they differ, and both companies start verified |
| `Constants.SeedJobIdsDistinct` | constants.ts:25-58 | the seeded job ids are "1" and "2" and they differ |
| `Constants.SeedUsersOnePerRole` | constants.ts:60-83 | the three seeded users have pairwise distinct ids and pairwise distinct roles: seeker, employer and admin |
| `Constants.SeedEmployerReferences` | constants.ts:37-76 | job "1" names the seeded employer "e1"; job "2" names "e2", which is no seeded user's id |
| `PostJobModal.ParseSkills` | components/PostJobModal.tsx:44 | the skills list has one entry more than the text has commas; no entry has surrounding whitespace or a comma; entry k is the trimmed k-th comma-separated piece |
| `PostJobModal.ParseSkillsEmpty` | components/PostJobModal.tsx:44 | empty skills text gives exactly one empty skill |
| `PostJobModal.ParseSkillsOfTidyText` | components/PostJobModal.tsx:44 | text whose pieces have no surrounding whitespace parses to exactly its pieces, which join back to the text |
| `PostJobModal.ParseSkillsStable` | components/PostJobModal.tsx:44 | re-parsing the comma-joined parsed skills gives the same skills |
| `PostJobModal.ApplyEdit` | components/PostJobModal.tsx:71-161 | an edit sets the field it names to the new value and keeps every other field |
| `PostJobModal.FormCompleteOnlyRequired` | components/PostJobModal.tsx:68-158 | the untouched form cannot be submitted; editing the type, category or skills never changes whether it can; emptying the title, location, salary or description makes it unsubmittable; only filling one of those can complete it |
| `PostJobModal.BuildDraft` | components/PostJobModal.tsx:42-49 | the draft carries the form's title, location, type, salary, category and description unchanged, the parsed skills, the employer id prop, the company prop as company name, and the date |
| `PostJobModal.Modal.constructor` | components/PostJobModal.tsx:15-24 | the form starts with an empty title, location "Remote", type Full-time, empty salary, category "Engineering", empty skills and description, and is not busy |
| `PostJobModal.Modal.Edit` | components/PostJobModal.tsx:71-161 | an input's change handler replaces that one field and leaves the busy flag alone |
| `PostJobModal.Modal.StartAiAssist` | components/PostJobModal.tsx:28-35 | with an empty title nothing changes and no request is made; otherwise the busy flag is set and the request carries the title, the company and the skills parsed as a submit parses them |
| `PostJobModal.Modal.FinishAiAssist` | components/PostJobModal.tsx:36-37 | only the description is replaced by the generated text, and the busy flag is cleared |
| `PostJobModal.Modal.HandleAiAssist` | components/PostJobModal.tsx:28-38 | with an empty title the form and flag are unchanged; otherwise exactly the description becomes the generator's answer for (title, company, parsed skills) and the flag ends cleared |
| `PostJobModal.Modal.HandleSubmit` | components/PostJobModal.tsx:40-49 | the handed-over draft is `BuildDraft` of the current form; the form is not reset |
| `App.OrElse` | App.tsx:47-50 | the value is used when present and non-empty, and otherwise the fallback |
| `App.CompanyWithId` | App.tsx:43 | a missing key finds nothing; otherwise the result is the first company with that id, and None exactly when there is none |
| `App.JobWithId` | App.tsx:85 | the result is the first job with that id, and None exactly when no job has it |
| `App.NewApplication` | App.tsx:26-36 | the application has the fresh id and the date, the job's id, the seeker's id, name and email, status Pending, and the analysis's score and feedback, each absent when the answer lacks it |
| `App.PostedJob` | App.tsx:42-51 | draft fields are kept; the id and date are the fresh ones; the employer id is the user's id or empty; the company id is the user's company id or empty; the company name is the first matching company's non-empty name, otherwise "Unknown"; a name other than "Unknown" always belongs to a listed company with that id |
| `App.VerifyCompanies` | App.tsx:56 | same length; each company with the id becomes verified with its other fields unchanged, and every other company stays exactly as it was, in place |
| `App.WithoutJob` | App.tsx:60 | exactly the jobs with another id remain, and none with the id |
| `App.NextUser` | App.tsx:63-67 | from a seeker the employer, from an employer the admin, from an admin or no user the seeker; always a seeded user |
| `App.SeekerApplications` | App.tsx:75 | exactly the applications whose seeker id is the user's id |
| `App.EmployerJobs` | App.tsx:84 | exactly the jobs whose employer id is the user's id, and no more of them than there are jobs |
| `App.PostShowsInEmployerJobs` | App.tsx:84 | a prepended (posted) job heads its poster's listing and leaves every other employer's listing unchanged |
| `App.EmployerApplications` | App.tsx:85 | exactly the applications whose job, looked up in the current job list, has the user as employer |
| `App.ApplicationCount` | components/EmployerDashboard.tsx:53 | the applicant count is at most the number of applications, zero exactly when none is for the job, and all of them when every one is |
| `App.VerifiedCount` | components/AdminDashboard.tsx:34 | the verified counter is at most the number of companies, zero exactly when none is verified, and all of them when every one is |
| `App.PendingCount` | components/AdminDashboard.tsx:46 | the pending counter is at most the number of companies, zero exactly when every one is verified, and all of them when none is |
| `App.ApplyDisabled` | components/JobCard.tsx:84 | the Apply button is disabled exactly when `find` over the seeker's applications succeeds for the job, or the user is an employer; a seeker with no application for the job may apply |
| `App.CompanyLabel` | App.tsx:93 | the form's company label is the non-empty name of the first company whose id is the user's company id, otherwise "Your Company"; any other label is the name of a listed company with that id |
| `App.PostedNameMatchesLabel` | App.tsx:47-50 | the posted job's company name is the label the form showed, except that where the form fell back to "Your Company" the job records "Unknown" |
| `App.Render` | App.tsx:69-121 | no user shows the welcome page; otherwise the dashboard of the user's role. The seeker dashboard gets the user, all jobs and exactly their applications; the employer dashboard gets exactly their jobs and applicants, the dialog's open flag, the user's id and the company label; the admin dashboard gets the seeker and employer accounts, all jobs and all companies |
| `App.VerifyMonotone` | App.tsx:56 | after verification a company is verified exactly when it was before or has the id, so verification is never revoked |
| `App.VerifyIdempotent` | App.tsx:56 | verifying an id twice equals verifying it once |
| `App.VerifyUnknownIsNoOp` | App.tsx:56 | verifying an id no company has leaves the list unchanged |
| `App.VerifyCountMonotone` | components/AdminDashboard.tsx:34 | verification never lowers the admin's verified-company counter |
| `App.VerifiedCountCons` | components/AdminDashboard.tsx:34 | the verified counter counts exactly one for each verified company |
| `App.PendingCountCons` | components/AdminDashboard.tsx:46 | the pending counter counts exactly one for each unverified company |
| `App.CountsPartition` | components/AdminDashboard.tsx:34-46 | the verified and pending counters add up to the number of companies |
| `App.VerifiedLeavesNonePending` | components/AdminDashboard.tsx:46 | after verifying an id, no pending company has that id |
| `App.ModeratedJobOrphansApplications` | App.tsx:59-61 | after removal no job has the id, and an application for it appears in no employer's view although it stays in the list |
| `App.ModerationKeepsOrder` | App.tsx:60 | removal distributes over any split of the job list, so the survivors keep their order |
| `App.ModerateUnknownIsNoOp` | App.tsx:60 | removing an id no job has leaves the job list unchanged |
| `App.SwitchRoleCycle` | App.tsx:63-67 | three switches from the seeker come back to the seeker; from any start, after the first switch the cycle has length three |
| `App.ApplyShowsInSeekerView` | App.tsx:75 | a prepended application heads its own seeker's view and leaves every other seeker's view unchanged |
| `App.ApplyShowsInEmployerView` | App.tsx:85 | a prepended application heads the view of the employer owning its job and leaves every other employer's view unchanged |
| `App.ApplyRaisesCount` | components/EmployerDashboard.tsx:53 | a prepended application raises its job's applicant count by one and no other job's |
| `App.AppliedDisablesButton` | components/JobCard.tsx:84 | once the seeker's new application is in their view, the job's Apply button is disabled for them |
| `App.SeedJobsNameTheirCompany` | constants.ts:25-58 | each seeded job's cached company name is the name of the seeded company its company id finds: TechFlow Systems for "1", CreativePulse for "2" |
| `App.SeedEmployerPostsAsTechFlow` | constants.ts:70-76 | a job posted by the seeded employer gets company "c1", name "TechFlow Systems" (not "Unknown"), and employer "e1"; the form is labelled "TechFlow Systems" |
| `App.AppState.constructor` | App.tsx:13-17 | the session starts as the seeded seeker, with the seeded jobs and companies, no applications, and the post dialog closed |
| `App.AppState.HandleApply` | App.tsx:19-40 | with no user nothing changes; otherwise exactly one Pending application, built from the user's id, name and email, the job id and the score and feedback (possibly absent) of the stand-in resume against the job description, is put in front, and the old list follows unchanged; nothing else changes |
| `App.AppState.HandlePostJob` | App.tsx:42-53 | exactly one job, `PostedJob` of the draft, user and companies, is put in front of the old job list; nothing else changes |
| `App.AppState.HandleVerifyCompany` | App.tsx:55-57 | the company list becomes `VerifyCompanies` of the old one: same companies in the same places, with verification only switched on; nothing else changes |
| `App.AppState.HandleModerateJob` | App.tsx:59-61 | the job list becomes `WithoutJob` of the old one; applications and everything else are unchanged |
| `App.AppState.SwitchRole` | App.tsx:63-67 | the user becomes the next demo user; nothing else changes |
| `App.AppState.Logout` | App.tsx:70 | the user becomes none; nothing else changes |
| `App.AppState.GetStarted` | App.tsx:114 | the user becomes the seeded seeker; nothing else changes |
| `App.AppState.OpenPostModal` | App.tsx:86 | the post dialog opens; nothing else changes |
| `App.AppState.ClosePostModal` | App.tsx:90 | the post dialog closes; nothing else changes |
| `App.AppState.SubmitPostJob` | components/PostJobModal.tsx:40-51 | an incomplete form submits nothing; a complete one posts exactly one job built from the form's draft, for the employer's id and company label, then closes the dialog |

## Left out

- The AI adapter: its network calls, prompts and JSON parsing are not modelled. The scorer and
  the description generator are function parameters. Only the scorer's failure value is written
  out. The recommendation and match-insight calls are not modelled.
- The match-insight button on a job card and the dashboards' tab state are UI state with no effect
  on the container. They are not modelled.
- `alert` pop-ups are display-only side effects. The one the empty-title guard raises is left out.
- Asynchrony: `HandleApply` runs as one step. `HandleAiAssist` is modelled both as one step and as
  `StartAiAssist`/`FinishAiAssist` around the await, so edits can happen in between. Interleavings
  of two applications are not modelled. Any such interleaving only puts the other application in
  front first, because `handleApply` updates the list from its latest value.
- Component mounting: the post form's state is reset only when the form is mounted again (after
  leaving and re-entering the employer view). The model creates a new `Modal` for that and does not
  tie the two objects' lifetimes together.
- Rendering and markup of every component, and the seeker dashboard's no-op save handler.
- Application status changes: the app has no operation that changes a status.
- `screeningQuestions` on jobs and `answers` on applications: no code sets them.
- App.AppState.HandleApply: the AI score is an integer here. The app's score is an unconstrained
  floating-point number taken from parsed JSON. Replies whose properties have the wrong JSON type
  are not modelled either; a missing property is (`Option` fields of `Analysis`).
- App.Render: the dashboards are represented by the data they are given, not by what they draw.
- Browser form validation is reduced to "required inputs are non-empty" (`FormComplete`). Other
  constraint-validation rules do not apply to these text inputs.
