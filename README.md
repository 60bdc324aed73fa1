# BuildCost: a verified model of the estimator and its screens

BuildCost is a single-page app for estimating construction materials. The
user goes through onboarding and then signs in (authentication is stubbed). On
the New Estimate form they enter dimensions and select materials. The app
turns these into one line per material: quantity = ceil(volume × factor),
cost = quantity × rate. It adds up the lines, lets the user edit rates on the
Cost Breakdown screen, and keeps the projects and a document registry in memory.

This project models that logic in Dafny and proves properties about it:

- `seqs.dfy` (`Seqs`): a left-to-right sum (the order `Array.reduce` adds in),
  an order-keeping filter, and the subsequence relation, with their lemmas.
- `records.dfy` (`Records`): the `Project`, material line and `Document`
  records of `src/App.tsx`, and the sum of line costs.
- `estimator.dfy` (`Estimator`): the material table, the quantity formula, the
  selection that the checkboxes toggle (a class with the form's fields), and
  the project that Estimate produces.
- `breakdown.dfy` (`Breakdown`): rate editing as an update of one line (a class
  holding the edited lines), the displayed total, the chart data and its
  colour cycle, and Recalculate.
- `app.dfy` (`AppShell`): the app's stage machine (onboarding, login, signup,
  main), the main screen, the current project and the project list (a class
  whose handler methods update its fields), and what is rendered in each state.
- `documents.dfy` (`Documents`): the bills and documents tabs, how a project
  name is looked up, and the case-insensitive search.
- `signup.dfy` (`SignupForm`), `login.dfy` (`LoginForm`): the submit guards.
  Each returns an outcome value that stands for the toast or the callback.
- `onboarding.dfy` (`Onboarding`): the slide counter.
- `home.dfy` (`Home`): the total budget, the three recent projects and the
  material chips shown on each.

Money, dimensions and factors are exact `real`s. Every sum is a left fold, in
the order the source's `reduce` adds.

## Model

| member | source | states |
|---|---|---|
| Records.SumCosts | src/components/ProjectInput.tsx:85 | the total of no lines is 0, and the total is non-negative when every line cost is |
| Estimator.Factor | src/components/ProjectInput.tsx:53-74 | every table material has a positive factor; any other name gets the default 0 |
| Estimator.Volume | src/components/ProjectInput.tsx:47 | the volume is non-negative for non-negative dimensions, and 0 when any dimension is 0 |
| Estimator.Ceil | src/components/ProjectInput.tsx:53-71 | the result is the least integer not below x (Math.ceil) |
| Estimator.LineFor | src/components/ProjectInput.tsx:49-82 | a line keeps the material's name and takes its rate and unit from the table; its quantity is the least integer ≥ volume × factor; its cost is quantity × rate |
| Estimator.Lines | src/components/ProjectInput.tsx:49-83 | one line per selected material, same length and order: line i is the line for selectedMaterials[i] |
| Estimator.ProjectName | src/components/ProjectInput.tsx:89 | the name is never empty: the typed name if there is one, otherwise type + " Project" |
| Estimator.ProjectLocation | src/components/ProjectInput.tsx:100 | the location is never empty: the typed location, otherwise "Not specified" |
| Estimator.Removed | src/components/ProjectInput.tsx:37 | at most as long as the selection; holds only selected names other than the material, and every selected name other than the material |
| Estimator.Toggled | src/components/ProjectInput.tsx:35-41 | the material is in the new selection exactly when it was not in the old one; every other name in it was already selected; an absent material is appended at the end, after the old selection in its order |
| Estimator.ToggleFlipsMembership | src/components/ProjectInput.tsx:35-41 | a toggle flips the clicked material's membership and leaves every other material's membership alone |
| Estimator.RemovedKeepsOthers | src/components/ProjectInput.tsx:37 | removal drops every occurrence of the material; the other elements, with their counts, stay in their original order (a subsequence) |
| Estimator.ToggleTwiceRestores | src/components/ProjectInput.tsx:35-41 | an absent material is appended at the end, so clicking it again gives back the original selection |
| Estimator.ToggleStaysInTable | src/components/ProjectInput.tsx:202-207 | toggling a table material keeps every selected name in the table |
| Estimator.LinesAppend | src/components/ProjectInput.tsx:39-85 | selecting one more material appends exactly its line, and the total grows by that line's cost |
| Estimator.QuantityNonNegative | src/components/ProjectInput.tsx:16-81 | for a volume ≥ 0, every table material has quantity ≥ 0 and cost ≥ 0 |
| Estimator.CementExample | src/components/ProjectInput.tsx:47-81 | 20 × 15 × 3 = 900; with Cement selected, quantity = 1197 and cost = 538650 |
| Estimator.EstimateForm.constructor | src/components/ProjectInput.tsx:26-33 | initial form: type "Building", empty text fields, selection Cement, Sand, Gravel |
| Estimator.EstimateForm.ToggleMaterial | src/components/ProjectInput.tsx:35-41 | only the selection changes; it becomes the toggled selection, and stays within the table |
| Estimator.EstimateForm.CalculateQuantities | src/components/ProjectInput.tsx:43-106 | callable only when the form is valid (line 106; the button is disabled otherwise). At least one line, one per selected material, in order. Total = sum of line costs. Name and location get their defaults; dimensions as parsed, with thickness only when its field is filled in |
| Estimator.EstimateEnabled | src/components/ProjectInput.tsx:106 | the Estimate button is enabled exactly when length, breadth and height are filled in and the estimate would have at least one line |
| Estimator.ThicknessIgnored | src/components/ProjectInput.tsx:44-97 | the thickness changes neither the lines nor the total |
| Breakdown.ColorAt | src/components/CostBreakdown.tsx:74-76 | the slice colour is always one of the six palette colours |
| Breakdown.ColorsCycle | src/components/CostBreakdown.tsx:75 | the colour of slice i + 6 is the colour of slice i |
| Breakdown.NearbySlicesDiffer | src/components/CostBreakdown.tsx:16 | any six consecutive slices get six different colours |
| Breakdown.RateOrZero | src/components/CostBreakdown.tsx:27 | a parsed rate is used as it is; a rate that does not parse becomes 0 |
| Breakdown.WithRate | src/components/CostBreakdown.tsx:28-33 | same length; every other line unchanged; line i keeps its name, quantity and unit, gets the new rate, and its cost becomes quantity × rate |
| Breakdown.WithRateTotal | src/components/CostBreakdown.tsx:26-47 | after an edit, the new total = the old total − the old line cost + the new line cost |
| Breakdown.WithRateCommute | src/components/CostBreakdown.tsx:28-33 | edits to two different lines commute |
| Breakdown.WithRateLastWins | src/components/CostBreakdown.tsx:28-33 | of two edits to the same line, only the second one counts |
| Breakdown.WithRateIdempotent | src/components/CostBreakdown.tsx:28-33 | repeating an edit changes nothing |
| Breakdown.ChartData | src/components/CostBreakdown.tsx:21-24 | one entry per line, in order, named after the line, with the line's cost as its value |
| Breakdown.ChartTotal | src/components/CostBreakdown.tsx:21-47 | the chart values add up to the displayed total |
| Breakdown.CostBreakdownView.constructor | src/components/CostBreakdown.tsx:19 | the editable lines start as the project's lines |
| Breakdown.CostBreakdownView.TotalCost | src/components/CostBreakdown.tsx:47 | the displayed total equals the sum of the pie chart's values |
| Breakdown.CostBreakdownView.HandleRateChange | src/components/CostBreakdown.tsx:26-35 | the lines become the point update of line i with the parsed rate (or 0); the displayed total moves by that line's change in cost |
| Breakdown.CostBreakdownView.HandleRecalculate | src/components/CostBreakdown.tsx:37-45 | the result carries the edited lines and their sum as total; every other field is copied from the project |
| Breakdown.RecalculateUnedited | src/components/CostBreakdown.tsx:37-45 | with no edits, Recalculate on a consistent project returns that same project |
| AppShell.Render | src/App.tsx:120-207 | main content appears exactly in the main stage, and each other stage shows its own screen. The home, input, projects, bills and settings screens show their own content. The result and breakdown screens show the current project, and only when there is one; without one they show nothing |
| AppShell.SeedProjectsAsWritten | src/App.tsx:51-81 | the two sample projects the app starts with, with distinct ids; their stored totals give Home a budget of 213000 |
| AppShell.SeedDocuments | src/App.tsx:82-86 | three sample documents with distinct ids, each filed under one of the sample projects |
| AppShell.SeedTotalsDisagree | src/App.tsx:51-81 | the sample lines add up to 215000 and 68900, not the stored 145000 and 68000 |
| AppShell.SeedProjects | src/App.tsx:51-81 | the sample projects with only their totals corrected; every one is consistent, and Home's budget for them would be 283900 |
| AppShell.App.constructor | src/App.tsx:46-86 | start in onboarding on the home screen, light theme, no current project, empty e-mail, the sample documents and the sample projects as written, with their stored totals 145000 and 68000 |
| AppShell.App.HandleOnboardingComplete | src/App.tsx:88-90 | the stage becomes login |
| AppShell.App.GoToSignup | src/App.tsx:130 | the stage becomes signup |
| AppShell.App.BackToLogin | src/App.tsx:141 | the stage becomes login |
| AppShell.App.HandleLogin | src/App.tsx:92-95 | stores the e-mail and enters the main stage |
| AppShell.App.HandleSignup | src/App.tsx:97-100 | stores the e-mail and enters the main stage |
| AppShell.App.HandleNewEstimate | src/App.tsx:102-105 | the argument becomes the current project and the result screen is shown |
| AppShell.App.HandleSaveProject | src/App.tsx:107-109 | the new list is [project] + the old list: one longer, the project first, the old projects after it in their order; no deduplication |
| AppShell.App.HandleViewBreakdown | src/App.tsx:111-113 | the breakdown screen is shown |
| AppShell.App.HandleRecalculate | src/App.tsx:115-118 | the recalculated project becomes the current project and the result screen is shown |
| AppShell.App.ViewProject | src/App.tsx:187-190 | the chosen project becomes the current project and the result screen is shown |
| AppShell.App.Navigate | src/App.tsx:212-256 | the chosen screen is shown |
| AppShell.App.ToggleTheme | src/App.tsx:204 | the theme flag flips |
| AppShell.FirstEstimateFlow | src/App.tsx:88-105 | onboarding, login, New Estimate, then Estimate: the app shows the result of that project, signed in with that e-mail |
| AppShell.SaveTwiceFlow | src/App.tsx:107-109 | saving the same project twice lists it twice, ahead of the sample projects the app starts with |
| Documents.Bills | src/components/BillsDocuments.tsx:19 | holds only registry documents of kind bill, and every one of them |
| Documents.Docs | src/components/BillsDocuments.tsx:20 | holds only registry documents of kind document, and every one of them |
| Documents.TabsPartition | src/components/BillsDocuments.tsx:19-20 | bills holds exactly the bills and docs exactly the documents, each a subsequence of the registry; together they hold every document exactly once, so \|bills\| + \|docs\| = \|documents\| |
| Documents.GetProjectName | src/components/BillsDocuments.tsx:22-25 | the name of the first project with that id; "Unknown Project" when no project has the id or that name is empty |
| Documents.LowerChar | src/components/BillsDocuments.tsx:31-32 | an upper-case ASCII letter becomes the lower-case letter at the same position of the alphabet; every other character is unchanged |
| Documents.ToLower | src/components/BillsDocuments.tsx:31-32 | same length, each character lowercased |
| Documents.IncludesIff | src/components/BillsDocuments.tsx:31-32 | includes holds exactly when the query occurs at some position as a contiguous block |
| Documents.Matches | src/components/BillsDocuments.tsx:29-33 | a document matches exactly when the lowercased query occurs at some position of its lowercased title or of its lowercased project name |
| Documents.FilteredDocuments | src/components/BillsDocuments.tsx:27-34 | an empty query returns the input unchanged. The result is a subsequence of the input. A document is kept exactly when its lowercased title or lowercased project name contains the lowercased query, and then every copy of it is kept; no copy of any other document is |
| Documents.EmptyQueryMatchesAll | src/components/BillsDocuments.tsx:28 | any document matches the empty query, so the early return agrees with the filter |
| Documents.ToLowerIdempotent | src/components/BillsDocuments.tsx:31-32 | lowercasing twice is the same as lowercasing once |
| Documents.QueryCaseIgnored | src/components/BillsDocuments.tsx:31-32 | lowercasing the query first changes no match |
| SignupForm.HandleSubmit | src/components/Signup.tsx:39-59 | missing fields ⇔ some required field is empty. Otherwise: mismatch ⇔ the passwords differ; terms error ⇔ terms not accepted; success ⇔ all three checks pass, and success carries the entered e-mail. Exactly one outcome per submit |
| SignupForm.CompanyIgnored | src/components/Signup.tsx:29-45 | the company field never changes the outcome |
| LoginForm.HandleSubmit | src/components/Login.tsx:22-30 | error ⇔ e-mail or password empty; success passes on the entered e-mail and nothing else |
| LoginForm.PasswordContentIgnored | src/components/Login.tsx:22-30 | any two non-empty passwords give the same outcome |
| Onboarding.Carousel.constructor | src/components/Onboarding.tsx:38 | the counter starts at slide 0 |
| Onboarding.Carousel.ShowsSkip | src/components/Onboarding.tsx:94 | Skip is offered exactly when the slide shown is not the last one |
| Onboarding.Carousel.Title | src/components/Onboarding.tsx:52-75 | the title shown is one of the four slide titles, and it is the last one exactly when Skip is not offered |
| Onboarding.Carousel.HandleNext | src/components/Onboarding.tsx:40-46 | below the last slide, Next moves to the next slide; on the last slide it completes and the slide stays. It completes exactly when Skip is not offered, and the slide stays in 0..3 |
| Onboarding.Carousel.HandleSkip | src/components/Onboarding.tsx:48-50 | Skip always completes and changes nothing |
| Onboarding.NextThroughAll | src/components/Onboarding.tsx:10-46 | from the start, Next shows the four slides in order; only the fourth press completes |
| Home.TotalBudget | src/components/Home.tsx:14 | the budget is non-negative when every project's total is |
| Home.RecentProjects | src/components/Home.tsx:15 | the first min(3, \|projects\|) projects, in order |
| Home.MaterialChips | src/components/Home.tsx:92 | the names of the first min(3, \|materials\|) lines, in order |
| Home.TotalBudgetEmpty | src/components/Home.tsx:14 | the budget of no projects is 0 |
| Home.SaveUpdatesOverview | src/components/Home.tsx:14-64 | after a save: count + 1, budget + the project's total; the saved project comes first among the recent ones, followed by at most two of the previous ones |

## Left out

- Parsing: `parseFloat` is not modelled. The length, breadth, height and
  thickness arrive at `CalculateQuantities` as already-parsed reals. An edited
  rate arrives at `HandleRateChange` as `Option<real>`, where `None` stands for NaN.
- Floating point: the model uses exact reals. IEEE-754 rounding in
  `volume * factor` before `Math.ceil` can differ from exact arithmetic.
  `toLocaleString`, `toFixed` and the chart's percent labels are display
  formatting and are not modelled.
- Estimator.EstimateForm.CalculateQuantities: requires a valid form, because the
  Estimate button is disabled otherwise. The fields are number inputs, so a
  non-empty field parses. A NaN dimension is therefore not modelled.
- Clocks: `Date.now()` (the id) and `new Date()` (the date) become the `id` and
  `date` parameters.
- Toasts: they become the outcome values of `SignupForm` and `LoginForm`.
  Their text and display are not modelled.
- Material names: the rate-table lookup `materialRates[material]` requires the
  name to be in the table, which every checkbox ensures. `Factor` keeps the
  switch's default of 0, which table names never reach.
- App handlers: they carry no precondition on the stage, because the source
  sets the fields unconditionally. Which handler is available in which stage
  is captured by `AppShell.Render`.
- Form text fields: their `onChange` handlers are plain assignments to the
  `EstimateForm` fields. The show-password and remember-me toggles of the login
  and signup forms affect no logic.
- Documents: the list never changes, because `onAddDocument` is a no-op and
  upload only shows a toast.
- Home: the project count shown is `|projects|`. There is no separate function
  for it; `Home.SaveUpdatesOverview` states how a save changes it.
- E-mail format: the e-mail fields are `type="email"` inputs inside a form, so
  the browser refuses to submit a non-empty malformed address and the submit
  handler never runs for it. The model's `HandleSubmit` is the handler alone and
  accepts any non-empty e-mail.
- Case folding: only ASCII letters are lowercased. Unicode `toLowerCase` is not
  modelled.
- Rendering: JSX, CSS classes, icons, animation and the chart drawing are not
  modelled, nor is the effect of the dark theme on styling.
- `src/components/Settings.tsx`, `src/components/EstimationResult.tsx` and
  `src/components/MyProjects.tsx` are not part of this model. Their only
  logic is the App handlers they call (`ToggleTheme`, `HandleSaveProject`,
  `HandleViewBreakdown`, `ViewProject`), and those are modelled.
- Dimensions: the code checks only that the dimension fields are non-empty,
  not that the numbers are positive. The model follows the code.

## Findings

| source | as written | input that shows it | evidently intended | confidence | as-written member | corrected member |
|---|---|---|---|---|---|---|
| src/App.tsx:57-79 | the sample projects store totalCost 145000 and 68000 | their own lines: 54000 + 32000 + 31500 + 97500 = 215000, and 40000 + 22500 + 6400 = 68900 | a project's total is the sum of its line costs, as every estimate and recalculation produces it | medium; not executed | AppShell.SeedTotalsDisagree | AppShell.SeedProjects |

The `App` class starts with the sample list as written (`SeedProjectsAsWritten`),
so the model shows what the app shows: a Home budget of 213000 and a stored
total of 145000 for the first sample project. `SeedProjects` is the corrected
list, and states the budget the corrected totals would give.
