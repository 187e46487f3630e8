# Financial diagnosis: a verified model of its core rules

This project models the core of a small web application for financial diagnosis of companies.
A user logs in and enters one to three periods of income statement and balance sheet.
The server stores the diagnosis if the user's license still allows it, and a report page
shows ratios, traffic lights and a radar chart for the last period.

The model covers four parts of the application:

- **The ratio engine** (`FinancialCalculations`). It holds the ten ratios of one period and
  the period-over-period variations of an ordered list of periods. Every ratio whose
  denominator is exactly 0 is 0. Amounts are reals.
- **The editing rules of the new-diagnosis form** (`NewDiagnosis`).
  - The form starts with three blank periods.
  - Editing one field of one period recomputes the balance-sheet totals.
  - A switch omits receivables and payables.
  - The user chooses how many periods to submit.
  - Activity codes (CIIU, the international industrial classification ISIC in its national adaptation) are grouped
    by section for the code picker.
- **The report figures** (`Report`). These are the traffic lights, the score colour band,
  the radar axes, the per-period ratios and the last-period ratios.
- **The API server** (`Server`). The `users` and `diagnoses` tables are in-memory rows. The
  module covers the `x-user-id` authentication, the profile, login and history queries,
  start-up seeding, and the license gate of diagnosis submission.

`JsValues` writes out the JavaScript built-ins these rules depend on: `parseInt`,
`x || 0`, integer `toString`, `String.prototype.includes` and `String.prototype.toLowerCase`.
`Sequences.Filter` models both the code picker's `Array.prototype.filter` and the history query's
`WHERE user_id = ?` clause.
`Wrappers` holds `Option` and `Result`.

Where the source changes state step by step, the model is imperative:
- the form is a class `DiagnosisForm` whose methods update its fields;
- the database is a class `Database` whose handlers insert rows and update counters;
- the horizontal analysis and the code grouping are loops.

Each such method is tied to a pure function of the old state. For example,
`Server.PostDiagnosisAs` and `NewDiagnosis.EditPeriod` are pure, and the lemmas state
their properties.

Some choices read from the code:
- A submission for a user id with no row makes the handler read a field of `undefined`.
  Express then answers 500 through the error middleware, and the model does the same.
- The omit switch clears the data only when it was off before the click. The handler reads
  the flag's old value.
- The report page fails on a diagnosis with no period, so `Report.LastRatios` is `None` there.

## Model

| member | source | states |
|---|---|---|
| `Sequences.Filter` | src/pages/NewDiagnosis.tsx:33-36 | an element is kept exactly when it satisfies the predicate |
| `Sequences.FilterKeepsCountsAndOrder` | src/pages/NewDiagnosis.tsx:33-36 | each satisfying element occurs as often as in the input, the others not at all, and the result is a subsequence of the input |
| `FinancialCalculations.CalculateRatios` | src/utils/financialCalculations.ts:39-70 | gross profit is operating income less costs; operating and net profit follow from gross profit and the expenses; each margin, the liquidity, the debt ratio and the interest coverage times its non-zero denominator gives back its numerator (×100 for percentages), and is exactly 0 when that denominator is 0; working capital plus short-term obligations is short-term assets |
| `FinancialCalculations.NetProfitFromIncomeStatement` | src/utils/financialCalculations.ts:43-45 | gross profit is income minus costs, and net profit is all income minus all six cost and expense lines |
| `FinancialCalculations.MarginsFollowProfitSign` | src/utils/financialCalculations.ts:47-49 | with positive operating income each margin is positive exactly when its profit is |
| `FinancialCalculations.WorkingCapitalAgreesWithLiquidity` | src/utils/financialCalculations.ts:51-56 | with positive short-term obligations, working capital is positive exactly when liquidity exceeds 1 |
| `FinancialCalculations.IncomeScenario` | src/utils/financialCalculations.ts:43-55 | income 1000, costs 400, expenses 100 + 50 give profits 600/450/450, margins 60/45/45 and coverage 0 |
| `FinancialCalculations.BalanceScenario` | src/utils/financialCalculations.ts:51-56 | assets 500 + 100 against obligations 300 + 100 give liquidity 1.5 and working capital 200; liabilities 600 over assets 1000 give a debt ratio of 60 |
| `FinancialCalculations.Variation` | src/utils/financialCalculations.ts:80-81 | 0 when the previous value is 0; otherwise applying the percentage to the previous value gives the current one |
| `FinancialCalculations.VariationSign` | src/utils/financialCalculations.ts:80-81 | from a positive base the variation is positive exactly when the value grew and 0 exactly when it stayed |
| `FinancialCalculations.CalculateHorizontalAnalysis` | src/utils/financialCalculations.ts:72-91 | None exactly for fewer than two periods; otherwise n−1 records in input order, record i labelled "period i vs period i+1" with the variations of raw operating income, computed net profit and raw total assets |
| `JsValues.ParseIntOfToString` | server.ts:61-65 | `parseInt` reads back every integer's decimal `toString` |
| `JsValues.ParseIntWithoutDigits` | server.ts:63-64 | text with no decimal digit parses to NaN |
| `JsValues.IncludesAtSomePosition` | src/pages/NewDiagnosis.tsx:33-35 | `includes` holds exactly when the text occurs at some position |
| `JsValues.IncludesEmpty` | src/pages/NewDiagnosis.tsx:33-35 | an empty search matches every code |
| `JsValues.ToLowerCase` | src/pages/NewDiagnosis.tsx:35 | same length, each character lower-cased |
| `JsValues.ToLowerCaseIdempotent` | src/pages/NewDiagnosis.tsx:35 | lower-casing twice is lower-casing once |
| `JsValues.ParseInt` | server.ts:63 | `parseInt` without a radix: leading white space, a sign and a `0x` prefix are read, then the longest digit prefix; None (NaN) without digits. Properties in `ParseIntOfToString` and `ParseIntWithoutDigits` |
| `JsValues.IntToString` | src/pages/NewDiagnosis.tsx:118 | `id.toString()` for the `x-user-id` header: a minus sign for negatives, then the decimal digits. `ParseIntOfToString` reads it back |
| `JsValues.NumberOrZero` | src/pages/NewDiagnosis.tsx:91 | the or-zero after `parseFloat`: the parsed number, or 0 for NaN |
| `JsValues.Includes` | src/pages/NewDiagnosis.tsx:34-35 | `String.prototype.includes`; `IncludesAtSomePosition` proves it equals occurrence at some position |
| `NewDiagnosis.SetIncome` | src/pages/NewDiagnosis.tsx:92 | the named income-statement field gets the value and every other field keeps its own |
| `NewDiagnosis.SetBalance` | src/pages/NewDiagnosis.tsx:92 | the named balance-sheet field gets the value and every other field keeps its own |
| `NewDiagnosis.InitialFinancialData` | src/pages/NewDiagnosis.tsx:62-87 | three periods labelled `Periodo ${i + 1}`, every amount 0, totals consistent |
| `NewDiagnosis.EditPeriod` | src/pages/NewDiagnosis.tsx:89-103 | the edited field holds the value, the label and every other non-total field are unchanged, an asset (liability) component edit makes its total the sum of the three components, and any other edit leaves that total as it was |
| `NewDiagnosis.EditKeepsTotalsConsistent` | src/pages/NewDiagnosis.tsx:95-103 | an edit of any field but the two totals keeps both totals equal to their components |
| `NewDiagnosis.EditOfAssetTotal` | src/pages/NewDiagnosis.tsx:420 | writing into the read-only asset total keeps the rule only when the value is already the sum |
| `NewDiagnosis.OmitAdditional` | src/pages/NewDiagnosis.tsx:473-479 | receivables and payables become 0, totals become the two-component sums and are consistent, nothing else changes |
| `NewDiagnosis.DiagnosisForm.constructor` | src/pages/NewDiagnosis.tsx:62-87 | the initial statements, three periods selected, section not omitted; totals consistent |
| `NewDiagnosis.DiagnosisForm.HandleFinancialChange` | src/pages/NewDiagnosis.tsx:89-106 | exactly the given period becomes its edit with the parsed value or 0, other periods and settings unchanged; consistency kept for non-total fields |
| `NewDiagnosis.DiagnosisForm.ToggleOmitAdditional` | src/pages/NewDiagnosis.tsx:469-481 | the switch flips; when it was off, every period is replaced by its omitted form and all totals are consistent; when it was on, data unchanged |
| `NewDiagnosis.DiagnosisForm.SelectNumPeriods` | src/pages/NewDiagnosis.tsx:316-321 | the period count becomes the chosen 1, 2 or 3, data unchanged |
| `NewDiagnosis.DiagnosisForm.ActiveData` | src/pages/NewDiagnosis.tsx:111 | the first `numPeriods` periods, in order |
| `NewDiagnosis.MatchesSearch` | src/pages/NewDiagnosis.tsx:33-35 | the code contains the search text, or the lower-cased description contains the lower-cased search text |
| `NewDiagnosis.InSection` | src/pages/NewDiagnosis.tsx:41-44 | `parseInt` of the first two characters lies in the section's inclusive range; NaN is in no section |
| `NewDiagnosis.FilterBySearch` | src/pages/NewDiagnosis.tsx:33-36 | a code is kept exactly when it matches the search |
| `NewDiagnosis.FilterBySearchKeepsCountsAndOrder` | src/pages/NewDiagnosis.tsx:33-36 | each matching code occurs as often as in the catalogue, the others not at all, in catalogue order |
| `NewDiagnosis.CodesInSection` | src/pages/NewDiagnosis.tsx:41-44 | a code is kept exactly when its two-digit prefix lies in the section's inclusive range |
| `NewDiagnosis.CodesInSectionKeepsCountsAndOrder` | src/pages/NewDiagnosis.tsx:41-44 | each code of the section occurs as often as in the filtered list, the others not at all, in that list's order |
| `NewDiagnosis.Grouped` | src/pages/NewDiagnosis.tsx:38-49 | one group per section with at least one code, in section order. Properties in `GroupsAreSound`, `GroupsAreComplete` and `GroupsInSectionOrder` |
| `NewDiagnosis.GroupsOfSearch` | src/pages/NewDiagnosis.tsx:32-52 | every group of the searched catalogue is non-empty and listed, each of its codes is in the catalogue, matches the search and lies in the group's section, and the groups follow the section order |
| `NewDiagnosis.GroupsAreSound` | src/pages/NewDiagnosis.tsx:38-49 | every group is non-empty, for a listed section, and holds exactly that section's codes |
| `NewDiagnosis.GroupsAreComplete` | src/pages/NewDiagnosis.tsx:40-49 | every section with a matching code has its group |
| `NewDiagnosis.GroupsInSectionOrder` | src/pages/NewDiagnosis.tsx:40-49 | the groups' sections are a subsequence of the section list |
| `NewDiagnosis.GroupCiiu` | src/pages/NewDiagnosis.tsx:32-52 | the grouping of the matching codes: non-empty groups in section order whose codes are all matching codes within the group's section |
| `Report.NetProfitLight` | src/pages/Report.tsx:195 | green exactly for positive net profit, red otherwise |
| `Report.LiquidityLight` | src/pages/Report.tsx:196 | green above 1.2, yellow in (0.8, 1.2], red otherwise |
| `Report.GrossMarginLight` | src/pages/Report.tsx:197 | green above 30, yellow in (15, 30], red otherwise |
| `Report.DebtRatioLight` | src/pages/Report.tsx:198 | green below 50, yellow in [50, 70), red otherwise |
| `Report.LightsAreMonotone` | src/pages/Report.tsx:195-198 | more profit, liquidity or margin never gets a worse light; more debt never gets a better one |
| `Report.TrafficLights` | src/pages/Report.tsx:194-199 | the four panel rows, in display order, with the lights of the last ratios |
| `Report.LiquidityLightOfStatement` | src/pages/Report.tsx:196 | with positive obligations the light is green exactly when short-term assets exceed 1.2 × obligations and red exactly when at most 0.8 × |
| `Report.DebtRatioLightOfStatement` | src/pages/Report.tsx:198 | with positive assets the light is green exactly when liabilities are below half the assets and red exactly from 70% |
| `Report.ScoreColourOf` | src/pages/Report.tsx:113 | emerald from 70, amber in [40, 70), red below 40 |
| `Report.RadarData` | src/pages/Report.tsx:75-79 | three axes of full mark 100: liquidity × 20 capped at 100, the gross margin, and 100 minus the debt ratio |
| `Report.LeverageAxisOnChart` | src/pages/Report.tsx:78 | for liabilities between 0 and positive assets the leverage axis lies in [0, 100] |
| `Report.RatiosByPeriod` | src/pages/Report.tsx:70-73 | one row per period, same order and labels, with that period's ratios |
| `Report.LastRatios` | src/pages/Report.tsx:67-68 | the ratios of the final period; None for no period |
| `Report.LastRatiosIsLastRow` | src/pages/Report.tsx:67-73 | the last-period ratios equal the last per-period row |
| `Server.ViewOf` | server.ts:74 | the columns the profile and login answers give: key, name, limit and counter, never the password |
| `Server.Authenticate` | server.ts:60-67 | no or empty header: 401 "Unauthorized"; NaN: 401 "Invalid User ID"; a header that parses is accepted as the parsed integer, and nothing else is accepted |
| `Server.AuthenticateClientHeader` | server.ts:61-65 | the header `id.toString()` authenticates as `id` |
| `Server.FindUserById` | server.ts:74 | a found row is in the table with that key; none exactly when no row has the key |
| `Server.FindUserByCredentials` | server.ts:84 | a found row matches both name and password; none only when no row does |
| `Server.FindUserByUniqueId` | server.ts:18 | with unique keys the lookup by a row's key finds that row |
| `Server.GetUser` | server.ts:70-79 | 403 "Forbidden" unless the path id parses to the caller's id, 404 when no row has it; when one does, success, with a row of that key without its password |
| `Server.GetUserRequest` | server.ts:60-79 | an authentication failure is answered with its own error; otherwise the answer is GetUser's for the authenticated id |
| `Server.GetOwnProfile` | server.ts:70-79 | a client asking for its own id with its own header gets its own row |
| `Server.Login` | server.ts:82-90 | success only with a row matching both name and password, answered as that row without its password; otherwise 401 "Invalid credentials" and no row matches |
| `Server.LoginOfRegisteredUser` | server.ts:84-86 | with unique user names a user logging in with their own password gets their own row |
| `Server.Owned` | server.ts:93 | exactly the rows whose owner is the user |
| `Server.OwnedKeepsCountsAndOrder` | server.ts:93 | each row of the user occurs as often as in the table, the others not at all, in table order |
| `Server.InsertNewestFirst` | server.ts:93 | inserting into a newest-first list keeps it newest first and adds exactly one occurrence of the row |
| `Server.SortNewestFirst` | server.ts:93 | newest first, and a permutation of its input |
| `Server.ListDiagnoses` | server.ts:92-95 | only the user's rows, each as often as in the table, newest first |
| `Server.ListDiagnosesRequest` | server.ts:92-95 | an authentication failure is answered with its own error; otherwise the caller's history as ListDiagnoses gives it, so only rows of the id the header parses to |
| `Server.InsertOrIgnore` | server.ts:45 | a taken name leaves the tables unchanged; otherwise one row with the next key, the limit and count 0 is appended |
| `Server.ResetLimits` | server.ts:51 | every row gets the limit, nothing else changes |
| `Server.IncrementCount` | server.ts:109 | exactly the rows with the key get their counter plus one |
| `Server.PostDiagnosisAs` | server.ts:97-112 | no user row: 500 and no change; at the limit: 403 "License limit reached" and no change; otherwise the next key is returned, one row owned by the user is appended and the counter is incremented |
| `Server.PostChangesOnlyTheSubmitter` | server.ts:104-109 | an accepted submission adds one to the submitter's counter only and appends one row owned by them, keeping the old rows |
| `Server.PostKeepsWellFormed` | server.ts:97-112 | a submission keeps keys and names unique and every diagnosis owned by an existing user |
| `Server.PostDiagnosisRequest` | server.ts:97-112 | an authentication failure leaves the tables unchanged and is answered with its own error; otherwise the outcome is `PostDiagnosisAs` for the authenticated id |
| `Server.PostKeepsWithinLimits` | server.ts:99-109 | when every user is within their limit, all still are after a submission |
| `Server.PostKeepsUserWithinLimit` | server.ts:99-109 | one user within their limit stays within it after any submission, whatever the other users' counters; the user keeps key and limit |
| `Server.PostRequestKeepsInvariants` | server.ts:97-112 | the all-users version for a request with its authentication step, and well-formedness |
| `Server.PostRequestKeepsAccounts` | server.ts:97-112 | a request adds no account and changes no key, name, password or limit; counters only grow |
| `Server.ServePosts` | server.ts:97-112 | after any sequence of requests the accounts are the same, only their counters grown |
| `Server.ServePostsKeepsWithinLimits` | server.ts:99-109 | when every user is within their limit, no sequence of submissions takes any of them beyond it |
| `Server.ServePostsKeepsUserWithinLimit` | server.ts:99-109 | a user within their limit stays within it through any sequence of submissions, even when another user is over theirs |
| `Server.PostKeepsCountsMatchingRows` | server.ts:104-109 | a submission keeps each counter equal to the number of the user's diagnoses |
| `Server.InsertOrIgnoreKeepsCountsMatchingRows` | server.ts:45-48 | a new user starts at 0 and owns no diagnosis |
| `Server.InsertOrIgnoreKeepsWellFormed` | server.ts:19 | inserting never duplicates a user name or a key |
| `Server.InsertOrIgnoreTakesName` | server.ts:45 | after the insert the name is taken, and names taken before still are |
| `Server.ResetLimitsKeepsWellFormed` | server.ts:51 | the limit reset changes no key, name or owner |
| `Server.SeedKeepsWellFormed` | server.ts:44-51 | seeding keeps the tables well-formed |
| `Server.Seeded` | server.ts:44-51 | existing rows and diagnoses are kept, at most three accounts are added, and every account ends with limit 5 |
| `Server.SeedIsIdempotent` | server.ts:44-51 | seeding twice is seeding once: restarting adds no account |
| `Server.SeedOfEmptyDatabase` | server.ts:44-51 | a new database gets exactly the three default accounts with keys 1 to 3, limit 5, count 0 |
| `Server.SeedCanLeaveUserOverLimit` | server.ts:50-51 | the limit reset can leave a user who was within a larger limit over the new one |
| `Server.Database.constructor` | server.ts:16-42 | two empty tables, keys starting at 1 |
| `Server.Database.InsertOrIgnoreUser` | server.ts:45 | the tables become `InsertOrIgnore` of the old ones, still well-formed |
| `Server.Database.SetAllLimits` | server.ts:51 | the users become `ResetLimits` of the old ones, still well-formed |
| `Server.Database.Seed` | server.ts:44-51 | the tables become `Seeded` of the old ones |
| `Server.Database.InsertDiagnosis` | server.ts:104-107 | one row with the next key is appended and the key is returned |
| `Server.Database.IncrementDiagnosesCount` | server.ts:109 | the users become `IncrementCount` of the old ones |
| `Server.Database.PostDiagnosis` | server.ts:97-112 | tables and answer are those of the request on the old tables; well-formedness, limits and counters matching rows are all kept |

## Left out

- Floating point: amounts are exact reals. JavaScript rounding, NaN, Infinity and negative zero are not modelled.
- `parseFloat` is a parameter: the parsed number, or None for NaN. `|| 0` is modelled on that value.
- `parseInt` skips only ASCII white space. It returns exact integers, without the precision loss of doubles above 2^53.
- JsValues.ToLowerCase: folds only ASCII letters. There is no Unicode case mapping, so capitals such as 'Á' and 'Ñ' in CIIU descriptions are not lower-cased.
- NewDiagnosis.MatchesSearch: inherits that gap. A lower-case search for a word written with a non-ASCII capital in a description ("ñ" against "Ñ") does not match, where the application would match.
- The change handler accepts any field name at run time. The model has only the seventeen fields of the two statements, which are the only ones the form passes.
- The handler copies the period list shallowly and mutates the period objects in place. The model replaces values, so aliasing between the old and new lists is not captured.
- The CIIU code and section lists are parameters. The constants file is not part of this model.
- The wizard steps and the dropdown state are left out. So are all rendering, animation, charts, PDF export (html2canvas, jsPDF) and locale formatting.
- The AI report call, the prompt and JSON parsing of its answer are left out. The score is a parameter.
- The report page's lookup of the diagnosis by id in the fetched list is left out, like all fetch calls and routing.
- JSON serialisation of `data` and `report` is left out: the model stores them as given text.
- Server.InsertOrIgnore: an ignored insert leaves the key counter unchanged. SQLite with AUTOINCREMENT may skip the key of a failed insert. No account is created after seeding, so the application cannot observe the difference.
- `Database.constructor`: models a new database file. Reopening an existing file is modelled by seeding any well-formed tables.
- `created_at` (CURRENT_TIMESTAMP) is a parameter of a submission. Clocks are not modelled.
- `Server.ListDiagnoses`: SQLite leaves the order of rows with equal `created_at` open. The model keeps them in table order, and the contract promises only newest-first order and exact contents.
- Concurrency: handlers are atomic and sequential. Interleaved requests between the limit check and the counter update are not modelled.
- Security design beyond the listed decisions is left out: plaintext passwords and trusting the header.
- Express itself is left out: Vite, static serving, the listening socket and logging. Only the answers the handlers give are modelled.
