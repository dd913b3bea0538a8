# WebsiteLaunchPad — a verified model of the application logic

WebsiteLaunchPad is a browser application. Visitors create an account,
plan a website project step by step, and track their progress towards
launching it. It also offers a catalogue of learning resources and a
library of templates. Every piece of state lives in the browser's
`localStorage`. This project models the logic under the pages, one Dafny
module per script, and proves what each operation promises.

- `common.dfy` (`Common`) holds the JavaScript vocabulary the scripts rely on:
  - `Math.round` of a quotient, and percentages;
  - `trim`, `toLowerCase`, `includes`, `join`;
  - `String(n)` and `parseInt`;
  - `Array.prototype.filter` and `findIndex`.
- `records.dfy` (`Records`) holds the stored records: accounts, registry projects and their tasks, tracked projects with their step sub-records, download entries and the wizard draft.
- `store.dfy` (`Store`) models `localStorage` as a class over a `map<string, Value>` of typed values, with the readers that apply the scripts' `|| []` defaults. It has two key families:
  - the account directory's `websiteLaunchpad_users` / `websiteLaunchpad_currentUser`;
  - the `projects` / `currentUser` keys used by the progress views, the dashboard and the template library.

  They are kept apart, exactly as the scripts keep them.
- `progress.dfy` (`Progress`, js/progress.js): step counting, the seven milestones, per-user statistics, the milestone tally and `updateProjectProgress`.
- `auth.dfy` (`Auth`, js/auth.js): the account directory (`initialize`, `register`, `login`, `logout`, the session) and `isValidEmail`, proved equal to its regular expression.
- `projects.dfy` (`Projects`, js/projects.js): the project registry kept inside each user record (create, read, update, delete, `updateUser`, `getStats`).
- `wizard.dfy` (`Wizard`, js/wizard.js): the five-step creation wizard:
  - the bounded step counter that advances only past a valid step;
  - the duplicate-free technology toggle, the review labels and the saved draft.
- `resources.dfy` (`Resources`, js/resources.js):
  - the resource catalogue and its order-preserving filter;
  - completion toggling;
  - saving completion as a list of ids and loading it back.
- `templates.dfy` (`Templates`, js/templates.js): the template library:
  - category counts and the two-stage filter used when rendering;
  - the lookup guards;
  - the per-user download log.
- `app.dfy` (`App`, js/main.js): the application shell:
  - the authentication redirect, single-page navigation and the active navigation item;
  - the dashboard list and its status badge;
  - step descriptions and default step data;
  - the settings form and session expiry.

Objects whose fields the scripts update become classes with `modifies`
frames, and `localStorage` is one `LocalStore` object shared by them; pure
computations are functions. The clock and the wall-clock timestamps
(`Date.now()`, `new Date().toISOString()`, the locale date) are
parameters (`now`, `today`). The page's location, the form fields and
the link targets of the navigation items are parameters too.

## Model

| member | source | states |
|---|---|---|
| Common.RoundDiv | js/progress.js:48 | `Math.round(a / b)` for a positive divisor: the integer nearest to a/b, halves rounded up |
| Common.Percent | js/progress.js:48 | the rounded percentage lies in 0..100 for a part of a whole, is 0 for nothing and 100 for everything |
| Common.PercentOrNaN | js/resources.js:444 | the percentage is undefined (NaN) exactly when the whole is 0, and otherwise lies in 0..100 |
| Common.RoundDivWithin | js/progress.js:177 | the rounded average of values in 0..hi stays in 0..hi |
| Common.Trim | js/wizard.js:286 | `trim` leaves no white space at either end and never lengthens the text |
| Common.TrimIsInfix | js/wizard.js:286 | the trimmed text is a contiguous piece of the input with only white space around it |
| Common.Lower | js/resources.js:182 | `toLowerCase` keeps the length and lower-cases every position |
| Common.LowerIdempotent | js/templates.js:121 | lower-casing an already lower-cased term changes nothing |
| Common.Utf16Length | js/auth.js:49 | a string's `length` counts UTF-16 code units: at least one and at most two per character, zero only for the empty string, and one per character when none lies outside the Basic Multilingual Plane |
| Common.Utf16LengthConcat | js/wizard.js:294 | code-unit lengths add up over concatenation |
| Common.AstralCharIsTwoUnits | js/auth.js:49 | a character outside the Basic Multilingual Plane, such as an emoji, is two code units |
| Common.ParseInt | js/main.js:693 | `parseInt` is NaN exactly when no digit follows the leading white space and one optional sign; otherwise its magnitude is the value of that digit run, negated only after a '-'; the empty text is NaN |
| Common.ParseIntString | js/main.js:693 | `parseInt` reads back exactly the integer that `Date.now().toString()` wrote |
| Common.FindIndex | js/progress.js:389 | `findIndex` yields the first position that passes the test, or none when no position does |
| Common.Filter | js/resources.js:219 | `filter` keeps exactly the elements that pass the test |
| Common.FilterIsSubsequence | js/resources.js:219 | `filter` keeps the survivors in their original order |
| Common.FilterMultiplicity | js/wizard.js:100 | `filter` keeps every passing element as often as it occurred and drops every failing one |
| Common.FilterUpdate | js/resources.js:219 | replacing one element by one the test treats alike replaces its copy in the filtered list, which sits right after the survivors before it, or changes nothing when it was filtered out |
| Common.JoinContainsParts | js/wizard.js:455 | every part of a joined list occurs in the joined text |
| Progress.StepNamesDistinct | js/progress.js:36-38 | the six launch steps are distinct |
| Progress.CompletedCount | js/progress.js:40-45 | at most six steps count as completed |
| Progress.StepPercent | js/progress.js:48 | the step percentage lies in 0..100 and is 100 exactly when all six steps are done |
| Progress.FullStepPercent | js/progress.js:48 | with six steps only six completed rounds to 100 percent (five give 83) |
| Progress.StepStatuses | js/progress.js:51-55 | one entry per step in fixed order; a missing sub-record reads as not completed with empty data |
| Progress.ProjectMilestones | js/progress.js:90-151 | seven milestones; the first is always reached and dated at creation; milestone k+1 mirrors step k's flag and completion date |
| Progress.MilestonesReached | js/progress.js:90-151 | a project has reached one milestone more than it has completed steps |
| Progress.SumPercentBounds | js/progress.js:165-175 | the summed step percentages of n projects lie in 0..100n |
| Progress.MarkedStep | js/progress.js:394-399 | the recorded step is completed and dated now, keeps its earlier fields, and its patch fields override them |
| Progress.MarkStep | js/progress.js:394-411 | only the named step changes; `stepsCompleted` is the recount and `progress` its percentage; `lastUpdated` is now; every other field is kept |
| Progress.CountAfterMarking | js/progress.js:403-405 | marking a step done never lowers the completed count |
| Progress.CountAfterMarkingNew | js/progress.js:403-405 | marking a step that was not done raises the count by exactly one |
| Progress.MarkStepMonotone | js/progress.js:394-407 | after an update the named step is done and the count has not dropped |
| Progress.MarkStepAgainLaunches | js/progress.js:423-425 | updating a project whose six steps are done again reports the launch, so the notice is not once-only |
| Progress.MarkLastStepLaunches | js/progress.js:423-425 | completing the one step still missing reports the launch |
| Progress.TrackedIndex | js/progress.js:389 | the first project with the id, or none exactly when no project has it |
| Progress.StatsInRange | js/progress.js:177-187 | the average progress and the success rate are percentages, and completed projects never exceed all projects |
| Progress.StatsOver | js/progress.js:161-187 | the counting loop yields the project count, the count of projects at 100 percent, the difference, the rounded average and the success rate (0 for no projects) |
| Progress.TallyMilestones | js/progress.js:331-337 | the inner tally counts the reached milestones, and reached plus pending is the milestone count |
| Progress.TallyOver | js/progress.js:329-338 | over n projects, reached plus pending is 7n; reached is n plus the completed steps |
| Progress.ProgressTracker.constructor | js/progress.js:7-11 | the tracker reads the projects list (or none) and the current user once |
| Progress.ProgressTracker.CalculateProjectProgress | js/progress.js:33-57 | a missing project gives 0/0/0 and no step list; otherwise completed ≤ total = 6, the rounded percentage in 0..100, and the step list |
| Progress.ProgressTracker.GetUserProgressStats | js/progress.js:157-189 | the statistics of the current user's projects only |
| Progress.ProgressTracker.MilestoneTally | js/progress.js:323-338 | over the user's projects, reached plus pending is seven per project |
| Progress.ProgressTracker.UpdateProjectProgress | js/progress.js:387-428 | an unknown id returns false and writes nothing; otherwise only that project is replaced by the marked one, and the launch flag says all six steps are done |
| Auth.Initialized | js/auth.js:14-28 | the demo account is seeded only when the users key is absent; nothing else in the store changes |
| Auth.RegistrationError | js/auth.js:45-63 | the refusals in the source's order: missing email or password, then a password under six UTF-16 code units, then a mismatched confirmation, then a taken email |
| Auth.NewUser | js/auth.js:66-76 | the new account is numbered one past the list length, carries the typed names, email, password and goal, is stamped with the creation time, and is on the free plan with no projects |
| Auth.RegisterKeepsIdsSequential | js/auth.js:67 | ids 1..n before a registration are ids 1..n+1 after it |
| Auth.RegisterKeepsEmailsUnique | js/auth.js:58-80 | an accepted registration keeps emails unique |
| Auth.ShortPasswordRefused | js/auth.js:49-51 | a non-empty password under six UTF-16 code units is refused, whatever else is typed |
| Auth.FindLogin | js/auth.js:95 | finds an account exactly when one matches both email and password, and it is the first such account |
| Auth.IsValidEmail | js/auth.js:164-167 | an accepted address has at least five characters, contains '@', and starts with neither '@' nor white space |
| Auth.IsValidEmailMatchesPattern | js/auth.js:164-167 | the string predicate holds exactly when the text matches `^[^\s@]+@[^\s@]+\.[^\s@]+$` |
| Auth.ValidEmailHasPattern | js/auth.js:165 | an accepted address splits as local@name.suffix with three non-empty runs free of white space and '@' |
| Auth.PatternIsValidEmail | js/auth.js:165 | every such split address is accepted |
| Auth.SplitAtDot | js/auth.js:165 | an accepted domain splits around one of its dots into two non-empty runs |
| Auth.AuthSystem.constructor | js/auth.js:5-9 | creating the directory initialises the store |
| Auth.AuthSystem.Initialize | js/auth.js:12-29 | the store after `initialize` |
| Auth.AuthSystem.GetUsers | js/auth.js:32-35 | the stored users list, or the empty list when none is stored |
| Auth.AuthSystem.SaveUsers | js/auth.js:38-40 | only the users key is written |
| Auth.AuthSystem.GetCurrentUser | js/auth.js:118-121 | the account held by the session entry, or null exactly when the entry holds none |
| Auth.AuthSystem.SetCurrentUser | js/auth.js:124-126 | only the session key is written, and the session is then that user |
| Auth.AuthSystem.IsLoggedIn | js/auth.js:129-131 | someone is logged in iff the session entry holds an account |
| Auth.AuthSystem.Register | js/auth.js:43-90 | a refusal writes nothing; success appends exactly the new account after the old ones and logs it in |
| Auth.AuthSystem.Login | js/auth.js:93-109 | failure leaves the store and the session as they were; success puts the first matching account in the session |
| Auth.AuthSystem.Logout | js/auth.js:112-115 | the session key is removed and nobody is logged in |
| Projects.DefaultTasks | js/projects.js:57-72 | ten tasks numbered 1..10, none completed |
| Projects.DefaultTasksIgnoreType | js/projects.js:57-72 | the project type does not change the checklist |
| Projects.DoneCount | js/projects.js:109 | at most as many completed tasks as tasks |
| Projects.TaskProgress | js/projects.js:109-111 | an empty task list gives NaN (stored as null); otherwise a percentage, 0 with nothing done and 100 with everything done |
| Projects.NewProject | js/projects.js:27-41 | the fields of a new project: given name and type, defaulted goal and technology, progress 0, 0 of 10 tasks, status planning, and counters that agree with the tasks |
| Projects.ApplyPatch | js/projects.js:101-112 | every field the patch carries replaces the project's and every other field is kept, the update time is stamped, and a patch with tasks recomputes both counters from them while one without keeps the task list |
| Projects.EmptyPatchStampsOnly | js/projects.js:101-105 | an empty patch only stamps the update time |
| Projects.PatchKeepsCountersAgreeing | js/projects.js:101-112 | a patch that touches neither tasks nor counters keeps them in agreement |
| Projects.ProjectIndex | js/projects.js:95 | the first project with the id, or none exactly when no project has it |
| Projects.RemoveProject | js/projects.js:132 | removes exactly the projects with that id, keeps the others in order, and shrinks exactly when one had it |
| Projects.UserIndex | js/projects.js:145 | the first account with the id, or none exactly when no account has it |
| Projects.UpdatedUsers | js/projects.js:143-152 | an unknown id changes nothing; otherwise that account is replaced in the list and copied to the session, and nothing else changes |
| Projects.SumProgressBounds | js/projects.js:160 | the summed progress of n projects whose progress is a percentage lies in 0..100n |
| Projects.StatsOf | js/projects.js:155-169 | active projects never exceed all projects; completed tasks are summed; the average is 0 without projects and otherwise the rounded mean of the progress values, a percentage when they all are |
| Projects.ProjectManager.constructor | js/projects.js:5-7 | the registry writes through the given directory |
| Projects.ProjectManager.UpdateUser | js/projects.js:143-152 | the store after `updateUser` |
| Projects.ProjectManager.GetProjects | js/projects.js:75-78 | the logged-in user's projects, and none when nobody is logged in |
| Projects.ProjectManager.GetProject | js/projects.js:81-86 | a project with that id from the user's list, or none exactly when the user has no such project |
| Projects.ProjectManager.CreateProject | js/projects.js:10-54 | no session, or an empty name or type, fails and writes nothing; otherwise the new project is appended after the user's others and written through `updateUser` |
| Projects.ProjectManager.UpdateProject | js/projects.js:89-122 | no session or an unknown id fails and writes nothing; otherwise only that project is patched |
| Projects.ProjectManager.DeleteProject | js/projects.js:125-140 | succeeds exactly when some project had the id, then writes the shortened list; a failure writes nothing |
| Projects.ProjectManager.GetStats | js/projects.js:155-169 | the statistics of the logged-in user's projects: all zero when nobody is logged in, never more active than total projects, and an average within 0..100 when every progress value is |
| Wizard.ValidateStep | js/wizard.js:270-328 | step 1 passes iff the trimmed name has at least three UTF-16 code units, and an empty name is reported as missing; steps 2 and 4 need a type and a template; step 3 needs a technology; any other step passes |
| Wizard.Toggled | js/wizard.js:95-101 | selecting pushes the tag at the end when absent and changes nothing otherwise; deselecting removes every occurrence and keeps every other tag as often as before and in order; a duplicate-free list stays duplicate-free |
| Wizard.NoDuplicatesSubsequence | js/wizard.js:100 | deleting elements cannot create a duplicate |
| Wizard.ToggleOnOff | js/wizard.js:95-101 | selecting and then deselecting an absent tag restores the list |
| Wizard.ProgressPercent | js/wizard.js:240 | the bar is (step−1)/4 of the way: 0 on step 1, 100 on step 5 |
| Wizard.Navigation | js/wizard.js:251-260 | Previous is disabled iff on step 1; Finish is shown and Next hidden iff on the last step |
| Wizard.FormatType | js/wizard.js:416-426 | the table label, or the raw type |
| Wizard.FormatGoal | js/wizard.js:428-438 | the table label, else the raw goal, else "Not specified"; never empty |
| Wizard.FormatTemplate | js/wizard.js:458-466 | the table label, or the raw template id |
| Wizard.FormatTech | js/wizard.js:440-456 | every technology's label occurs in the text, no technologies give the empty text, and one technology gives just its label |
| Wizard.FormatTechSnoc | js/wizard.js:455 | one more technology adds ", " and its label at the end |
| Wizard.SaveThenLoad | js/wizard.js:355-372 | saving the draft and loading it back restores the same form data |
| Wizard.ProjectWizard.constructor | js/wizard.js:5-19 | a wizard on step 1 holding the initial data, or the saved draft |
| Wizard.ProjectWizard.SaveStepData | js/wizard.js:355-358 | only the draft key is written, with the current form data |
| Wizard.ProjectWizard.LoadSavedData | js/wizard.js:360-372 | a saved draft replaces the form data; otherwise it is kept |
| Wizard.ProjectWizard.NextStep | js/wizard.js:166-189 | a step that fails validation is not left and nothing is saved; otherwise the draft is saved and the counter advances unless on step 5; the counter stays in 1..5 |
| Wizard.ProjectWizard.PrevStep | js/wizard.js:191-201 | back one step except on step 1; the counter stays in 1..5 |
| Wizard.ProjectWizard.ToggleTech | js/wizard.js:88-101 | only the technology list changes, as the toggle says |
| Resources.CatalogueIds | js/resources.js:22-145 | the catalogue has eight resources numbered 1..8 |
| Resources.CatalogueShape | js/resources.js:22-145 | the catalogue's ids are unique and nothing starts completed |
| Resources.ResourceFilter | js/resources.js:218-235 | an order-preserving sub-list of the matching resources; a category other than "all" is obeyed; a query occurs in each result's lower-cased title, description and tags; "all" with no query keeps everything |
| Resources.ResourceIndex | js/resources.js:362 | the first resource with the id, or none exactly when no resource has it |
| Resources.ResourceIndexSameIds | js/resources.js:362 | lists with the same ids in the same order find the same resource |
| Resources.Toggled | js/resources.js:361-365 | an unknown id is a no-op; otherwise exactly that resource's flag flips |
| Resources.ToggleTwice | js/resources.js:361-365 | toggling twice restores the list |
| Resources.MarkCompleted | js/resources.js:153-156 | marking one saved id keeps the ids of the list |
| Resources.MarkAll | js/resources.js:151-158 | loading a list of saved ids keeps the ids of the list |
| Resources.TargetsSnoc | js/resources.js:152 | one more saved id reaches the earlier targets and its own |
| Resources.MarkCompletedAt | js/resources.js:153-156 | one saved id sets the flag of the resource it finds and nothing else |
| Resources.MarkAllAt | js/resources.js:151-158 | loading sets exactly the flags some saved id points at and changes nothing else |
| Resources.MarkAllOnlySets | js/resources.js:151-158 | loading never clears a flag |
| Resources.SavedIds | js/resources.js:164-166 | one saved id per completed resource |
| Resources.SavedIdsMembers | js/resources.js:164-166 | an id is saved exactly when some completed resource has it |
| Resources.Cleared | js/resources.js:22-145 | every flag reset, the resources otherwise unchanged |
| Resources.SaveThenLoadAt | js/resources.js:149-174 | with unique ids, loading the saved ids onto cleared flags restores each resource |
| Resources.SaveThenLoad | js/resources.js:149-174 | with unique ids, loading the saved ids onto cleared flags restores the whole list |
| Resources.CompletionPercent | js/resources.js:442-444 | NaN exactly for an empty list, else a percentage |
| Resources.CataloguePercentDefined | js/resources.js:442-444 | the percentage over the catalogue is always defined |
| Resources.FormatCategory | js/resources.js:315-324 | the table label, or the raw category |
| Resources.FormatDifficulty | js/resources.js:326-328 | only the first character is upper-cased; the length and every other character are kept |
| Resources.ValidEmailSubscribes | js/resources.js:415 | every address `isValidEmail` accepts also passes the newsletter check |
| Resources.ResourcesManager.constructor | js/resources.js:5-18 | the catalogue with the session user's saved ids loaded, an empty filtered list, category "all" and no query |
| Resources.ResourcesManager.LoadUserProgress | js/resources.js:149-159 | the loop marks each saved id in turn, as `MarkAll` does; with no directory or no session it changes nothing |
| Resources.ResourcesManager.MarkSaved | js/resources.js:153-156 | one pass of the loop |
| Resources.ResourcesManager.SaveUserProgress | js/resources.js:161-174 | without a directory or session nothing is written; otherwise only the session record is rewritten with the completed ids |
| Resources.ResourcesManager.FilterResources | js/resources.js:218-235 | the filtered list is the filter of the current list |
| Resources.ResourcesManager.SetSearch | js/resources.js:181-185 | the query is the lower-cased input and the list is refiltered |
| Resources.ResourcesManager.SetCategory | js/resources.js:195-204 | the category is set and the list is refiltered |
| Resources.ToggleShowsThroughFilter | js/resources.js:361-365 | with unique ids, flipping the id's entry in the filtered list gives the filtered view of the toggled catalogue, as the shared objects do |
| Resources.ResourcesManager.FlipShared | js/resources.js:365 | the flag flips in the catalogue and in the filtered list that shares its objects; nothing else changes |
| Resources.ResourcesManager.ToggleComplete | js/resources.js:361-368 | an unknown id changes nothing; otherwise the flag flips in the catalogue and in the filtered list, which stays the filtered view of the catalogue when it was one, category and search are kept, and the progress is saved |
| Resources.ResourcesManager.UserProgressPercent | js/resources.js:440-444 | NaN exactly for an empty catalogue, else a percentage: 100 when every resource is completed and 0 when none is |
| Templates.CountIn | js/templates.js:82 | a category count never exceeds the template count |
| Templates.CategoriesOf | js/templates.js:80-87 | six buttons; "all" counts every template; business, portfolio and blog count their templates; e-commerce and landing are fixed at 0 |
| Templates.CountsPartition | js/templates.js:82-84 | when every template is business, portfolio or blog, the three counts add up to "all" |
| Templates.CountByNames | js/templates.js:82 | counting a category needs only the templates' category names |
| Templates.BuiltInCounts | js/templates.js:26-87 | the three built-in templates, one per counted category |
| Templates.VisibleIsOneFilter | js/templates.js:112-127 | the category filter and then the search filter are one filter on both tests |
| Templates.VisibleProperties | js/templates.js:112-127 | an order-preserving sub-list; "all" with no search shows everything; another category is obeyed; shown iff the template passes both tests |
| Templates.SearchIgnoresCase | js/templates.js:120-126 | two search texts with the same lower-case form show the same templates |
| Templates.FindTemplate | js/templates.js:220 | a template with the id, or none exactly when no template has it |
| Templates.Tracked | js/templates.js:430-438 | one entry appended at the end of the user's list, which is created if absent; other users' lists are unchanged |
| Templates.LoggedDownload | js/templates.js:426-441 | no current user changes nothing; otherwise only the download log is written, with the entry appended |
| Templates.TemplateManager.constructor | js/templates.js:7-13 | the built-in templates with their counts, filter "all" and no search |
| Templates.TemplateManager.CountCategories | js/templates.js:80-87 | the category counts of the loaded templates |
| Templates.TemplateManager.Rendered | js/templates.js:108-127 | the templates shown keep their catalogue order and are exactly those in the chosen category that match the search |
| Templates.TemplateManager.SetFilter | js/templates.js:178-183 | only the filter changes |
| Templates.TemplateManager.SetSearch | js/templates.js:203-206 | only the raw search text changes |
| Templates.TemplateManager.PreviewTemplate | js/templates.js:219-221 | an unknown id shows nothing |
| Templates.TemplateManager.DownloadTemplate | js/templates.js:292-298 | an unknown id offers nothing; otherwise that template's download dialog opens |
| Templates.TemplateManager.ProcessDownload | js/templates.js:369-402 | a ZIP download is logged; the HTML copy writes nothing |
| Templates.TemplateManager.TrackTemplateDownload | js/templates.js:426-441 | the store after logging one download |
| App.RedirectFor | js/main.js:30-49 | signed in on the login or registration page goes to the dashboard; signed out on one of the five protected pages goes to login; nothing else redirects |
| App.RedirectSettles | js/main.js:30-49 | following a redirect never leads to another |
| App.LastSegment | js/main.js:9 | the last segment contains no slash |
| App.LastSegmentIsTail | js/main.js:97 | the last segment ends the path, with a slash before it unless it is the whole path |
| App.LastSegmentOfPage | js/main.js:97 | the last segment of dir/page is the page |
| App.LastSegmentUnique | js/main.js:97 | only one tail of a path follows a '/' (or starts it) and holds no '/', and that tail is what `split('/').pop()` gives |
| App.IsSPAPage | js/main.js:95-99 | a path is a single-page route iff the text after its last '/' is one of the four page names |
| App.SPAPageAnyDirectory | js/main.js:95-99 | a page counts as single-page iff its name is one of the four, whatever its directory |
| App.DashboardProjects | js/main.js:215-216 | exactly the stored projects that carry the current user's id, in their stored order |
| App.StatusLabel | js/main.js:237-238 | "Completed" iff the stored progress is 100 |
| App.CompletedBadgeMeansAllSteps | js/main.js:237-238 | with the stored percentage as recorded, the badge says completed iff all six steps are done |
| App.MarkedProjectBadge | js/main.js:237-238 | after a step is recorded, the badge says completed iff all six steps are done |
| App.GetStepDescription | js/main.js:384-395 | an unknown step gives "Complete this step"; a missing key field gives the step's prompt; otherwise the text shows the value; a truthy non-list `keywords` throws for every step |
| App.DescribeShowsValue | js/main.js:386-391 | a step's text contains the value shown for its key field |
| App.GetStepDefaultData | js/main.js:421-432 | an unknown step gives no data |
| App.DefaultDataDescriptions | js/main.js:384-432 | each step completed with its default data is described with that data's value |
| App.WithSettings | js/main.js:480-491 | an unknown id gives nothing to save; otherwise only that project changes, an empty field keeps the old value, and the update is stamped |
| App.SettingsKeepProgress | js/main.js:486-489 | saving settings leaves every project's id, steps and progress alone |
| App.SettingsIdempotent | js/main.js:486-489 | saving the same form twice is saving it once |
| App.SessionExpired | js/main.js:686-693 | the session expires iff a user is signed in, a recorded activity parses, and more than an hour has passed since it |
| App.ExpiryAfterRecording | js/main.js:693 | with the activity recorded by a click, the session expires exactly when more than 3600000 ms have passed |
| App.ExpiryBoundary | js/main.js:693 | exactly an hour is not yet expired, one millisecond more is; nobody signed in never expires |
| App.WebsiteLaunchPad.constructor | js/main.js:7-9 | no user yet, and the page is the path's last segment; the `init` that follows starts with `checkAuthentication`, which is the separate method CheckAuthentication |
| App.WebsiteLaunchPad.CheckAuthentication | js/main.js:30-49 | the redirect decision for the stored sign-in; a signed-in user is read |
| App.WebsiteLaunchPad.NavigateTo | js/main.js:80-88 | a single-page view changes the current page in place; anything else reloads |
| App.WebsiteLaunchPad.UpdateActiveNav | js/main.js:152-164 | each item is active iff its href equals the current page |
| App.WebsiteLaunchPad.SaveProjectSettings | js/main.js:480-493 | an unknown id writes nothing; otherwise the updated list is saved |
| App.WebsiteLaunchPad.Logout | js/main.js:609-612 | the signed-in user is forgotten |
| App.WebsiteLaunchPad.CheckSession | js/main.js:685-697 | an expired session logs out; otherwise nothing is written |
| App.WebsiteLaunchPad.RecordActivity | js/main.js:701-703 | a click records the time as text |

## Left out

- Rendering: DOM work, modals, notifications, injected styles, event-listener wiring and page redirects are left out. Decisions that lead to a redirect are returned as values instead.
- Chart.js: chart construction, the chart tooltip arithmetic and the chart refresh in `updateProjectProgress` are left out. That refresh would throw after the store write when Chart.js is missing; it does not change what is stored.
- `calculateTimeSpent` and the time fields of the user statistics are left out: they are floating-point clock arithmetic.
- Timers are left out: the delays, the wizard's auto-save timer and the session polling interval. One tick of the poll is `CheckSession`.
- JSON parsing and printing are left out. Stored values are typed; an unreadable stored value reads as absent.
- The wizard's `createProject` is not modelled. It hands the form data to the registry's `createProject`, which is modelled, and then clears the draft.
- Not modelled:
  - the login and registration form handlers;
  - `handleAjaxForm`;
  - `openResource`;
  - the newsletter's storage write after its delay;
  - the clipboard, Blob and object-URL code of the template downloads;
  - the learning-path demo numbers.
- Resource `icon`, `color` and `rating` are not modelled; they only feed rendering.
- Common.Lower, Common.UpperChar: lower- and upper-casing cover ASCII letters only.
- Common.RoundDiv: `Math.round` on a floating-point quotient is modelled as exact rounding of the rational quotient.
- Progress.MarkStep: the step's sub-record is kept separately from the project's own fields. A step named like a project field (`name`, `id`) would overwrite that field in the source; the model does not capture this.
- App.GetStepDescription, App.GetStepDefaultData, Wizard.FormatType, Wizard.FormatGoal, Wizard.FormatTemplate, Wizard.TechLabel, Resources.FormatCategory: lookups of inherited object keys are not modelled. In the source, `table[key]` on a plain object also finds inherited properties such as `toString` or `constructor`, which are functions; the model treats such a key as absent and gives the fallback (`{}` for the step defaults).
- Projects.NewProject, Progress.MarkStep: the source reads the clock twice (projects.js:38-39 for `createdAt` and `lastUpdated`; progress.js:398 and 408 for `completedDate` and `lastUpdated`). The model takes one `now` for both, so it promises two equal stamps where the source may give two that differ by a millisecond.
- Resources.ResourcesManager.ToggleComplete: the filtered list is a value copy here. In the source its entries are the catalogue's own objects, and a flip shows in both; the model flips the first entry with the id in each list, which is exactly that sharing when the ids are unique (Resources.ToggleShowsThroughFilter; the catalogue's ids are, Resources.CatalogueShape).
- App.WebsiteLaunchPad.constructor: `init` is not run by the constructor. Its first step is CheckAuthentication; the rest sets up listeners, rendering and timers.
- Ids are integers and compared exactly, so the loose `==` of `getProject`/`updateProject`/`deleteProject` is not reproduced.
- `window.auth` is never assigned by these scripts. The resource manager takes an optional directory, and the registry and wizard take theirs as a parameter.
- Common.ParseInt: only decimal text is read. A `0x` prefix, which `parseInt` reads as hexadecimal, reads here as the digit 0. The values read back are decimal timestamps written by `Date.now().toString()`.
