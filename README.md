# LoanSewa credit-risk backend, modelled in Dafny

LoanSewa is a loan-application service with a small HTTP backend:

- Users sign up with a name, an email, a mobile number, an Aadhaar number and a password. The email, mobile number and Aadhaar number must each be unused. Signup does not check the shape of the mobile or Aadhaar number.
- Users log in with any of the three identifiers.
- A user submits loan applications. A heuristic scorer gives each application a default probability, a credit score in 300–900, a rating band and a status.
- An advisor turns the newest application, and its trend against the one before it, into an ordered list of credit-improvement suggestions.

The model has one module per backend file:

| module | file | form |
|---|---|---|
| `Schemas` | `schemas.dfy` | Request validation. The field constraints and the password-confirmation check are predicates, plus the list of violations that validation reports. |
| `PredictionHelper` | `prediction_helper.dfy` | The scorer. The risk total is built step by step in the method `AccumulateRisk`, which is proved equal to the band-by-band function `RiskScore`. `CalculateCreditScore` turns that total into probability, score and rating, and is proved against the closed-form score. |
| `CreditImprovement` | `credit_improvement.dfy` | The advisor. `GetDefaultSuggestions` appends suggestions one at a time, and is proved equal to the part-by-part list `DefaultSuggestions`. That list is checked against an independent threshold table, `Fires`. |
| `Models` | `models.dfy` | Only the record shapes of the two database tables. |
| `Api` | `api.dfy` | The identifier classifiers, and class `LoanService`, whose two sequence fields are the user table and the application table. Each HTTP handler is a method of that class. |

`Wrappers` holds `Option` and `Result`. Every handler returns `Result<…, Failure>`. A `Failure` is one of:

- an HTTP status with its detail text;
- the list of validation errors (status 422).

The class invariant `LoanService.Valid()` says:

- User ids are the table positions.
- Names are 2–100 characters long.
- Email, mobile number and Aadhaar number are each unique.
- Every stored application is valid.
- Every stored application carries exactly the verdict the scorer gives its inputs, and the status that verdict implies.
- No user has two identical applications.

Each handler is one atomic step on the two tables, so the invariant holds for handlers that run one after another (see "## Left out").

## Model

| member | source | states |
|---|---|---|
| Schemas.SignupErrors | backend/schemas.py:6-18 | No errors iff the name is 2–100 characters long and the two passwords agree. "Too short" is reported iff the name has fewer than 2 characters, and "too long" iff it has more than 100. A password mismatch is reported iff the passwords differ. |
| Schemas.ValidIffEveryField | backend/schemas.py:41-52 | The one-conjunction validity of a loan request holds iff every field's own constraint holds. |
| Schemas.InvalidFields | backend/schemas.py:41-52 | A field is listed iff it is among those checked and breaks its constraint. The list is never longer than the field list. |
| Schemas.LoanRequestErrors | backend/schemas.py:41-52 | The reported list is empty iff the request is valid. A field appears in it iff that field breaks its constraint (age 18–100, income and amount > 0, tenure > 0, DPD ≥ 0, ratios in 0–100, accounts 1–10, enumerated strings). |
| PredictionHelper.LoanToIncome | backend/prediction_helper.py:20 | The ratio times the income is the loan amount when the income is positive. The ratio is 0 otherwise. |
| PredictionHelper.PrepareInput | backend/prediction_helper.py:7-25 | Every input is carried to the record unchanged. The loan-to-income entry is `LoanToIncome` of the amount and the income. |
| PredictionHelper.RiskScore | backend/prediction_helper.py:32-89 | The total of the first-matching-band points never exceeds 150. |
| PredictionHelper.DefaultProbability | backend/prediction_helper.py:92 | The probability lies in [0, 0.99]. Below a risk of 99 it is exactly risk/100, and from 99 up it is the cap 0.99. |
| PredictionHelper.Truncate | backend/prediction_helper.py:96 | `int()` truncation toward zero, bracketed from both sides for both signs. |
| PredictionHelper.GetRating | backend/prediction_helper.py:99-109 | "Undefined" iff the score lies outside [300, 900]. |
| PredictionHelper.AccumulateRisk | backend/prediction_helper.py:31-89 | Adding the points factor by factor, first matching band only, gives exactly the band-table total `RiskScore` (at most 150). |
| PredictionHelper.CalculateCreditScore | backend/prediction_helper.py:28-113 | The result is the band-table verdict `Assess`. The score equals 900 − 6·min(risk, 99) and lies in [306, 900]. The rating is never "Undefined". |
| PredictionHelper.Predict | backend/prediction_helper.py:116-131 | The result is the verdict for `PrepareInput` of the same eleven arguments, in the same order. The score lies in [306, 900] and the rating is defined. |
| PredictionHelper.CreditScoreClosedForm | backend/prediction_helper.py:92-96 | `int(300 + (1 − min(risk/100, 0.99))·600)` equals 900 − 6·min(risk, 99). |
| PredictionHelper.CreditScoreBounds | backend/prediction_helper.py:92-111 | Every input gets a score in [306, 900] and a defined rating. |
| PredictionHelper.ScoreNonIncreasingInRisk | backend/prediction_helper.py:92-96 | More risk never gives a higher score. |
| PredictionHelper.RatingMonotone | backend/prediction_helper.py:99-109 | Within [300, 900], a higher score never gets a lower rating. |
| PredictionHelper.RatingBands | backend/prediction_helper.py:99-111 | The rating of the computed score is Poor below 500, Average below 650, Good below 750, and Excellent otherwise. |
| PredictionHelper.ResidenceRiskPoints | backend/prediction_helper.py:81-85 | With everything else equal, Mortgage adds 5 points over Owned, and Rented adds 10. |
| PredictionHelper.LoanTypeRiskPoints | backend/prediction_helper.py:87-89 | With everything else equal, Unsecured adds 15 points over Secured. |
| PredictionHelper.RiskMonotoneInFigures | backend/prediction_helper.py:34-73 | An input that is older, with lower loan-to-income, delinquency, utilisation and DPD figures, never has more risk or a lower score. |
| CreditImprovement.GetDefaultSuggestions | backend/credit_improvement.py:4-164 | Appending one suggestion at a time builds exactly the default list `DefaultSuggestions`, which the lemmas below characterise. |
| CreditImprovement.GetCreditImprovementSuggestions | backend/credit_improvement.py:232-242 | A configured key that is not the placeholder selects the language-model advisor. Otherwise the result is the default list. |
| CreditImprovement.TrendAdvices | backend/credit_improvement.py:10-57 | With one application or none, no trend advice is given. Otherwise the advice compares index 0 with index 1: score +>0 / <−20, utilisation >10 / <−10, delinquency >5. |
| CreditImprovement.DefaultAdvices | backend/credit_improvement.py:8-164 | The advice of the list, in order: trend advice, then one score-band advice, the utilisation, delinquency, account and debt advice that fired, then the three general advices. |
| CreditImprovement.GeneralTail | backend/credit_improvement.py:142-164 | The list has 4 to 11 entries. It ends with "Monitor Your Credit Report", "Diversify Your Credit Mix" and "Keep Old Accounts Open", in that order. |
| CreditImprovement.PrioritiesWellFormed | backend/credit_improvement.py:8-164 | Every entry is a rule-based suggestion whose priority is High, Medium or Low. |
| CreditImprovement.TrendMembership | backend/credit_improvement.py:11-57 | A trend advice is in the trend part iff its threshold in the reference table `Fires` holds. |
| CreditImprovement.BandMembership | backend/credit_improvement.py:60-81 | The band advice present is exactly the one whose score range contains the score. |
| CreditImprovement.UtilizationMembership | backend/credit_improvement.py:83-98 | "Reduce" iff utilisation > 50. "Lower" iff 30 < utilisation ≤ 50. |
| CreditImprovement.DelinquencyMembership | backend/credit_improvement.py:100-110 | "Address Past Delinquencies" iff the delinquency ratio > 20 or the average DPD > 15. |
| CreditImprovement.AccountMembership | backend/credit_improvement.py:112-127 | "Build Credit History" iff there are no accounts. "Manage Multiple Accounts" iff there are more than 5. |
| CreditImprovement.DebtMembership | backend/credit_improvement.py:129-140 | "High Debt-to-Income Ratio" iff the income is positive and the loan exceeds 3 × income. A non-positive income gives ratio 0. |
| CreditImprovement.AdviceIffFires | backend/credit_improvement.py:8-164 | For every advice: it is in the default list iff its condition in the reference table holds. |
| CreditImprovement.ExactlyOneScoreBand | backend/credit_improvement.py:60-81 | Exactly one score-band advice is in the list. Its priority is High below 500, Medium below 650, and Low otherwise. |
| Api.FirstIndexOf | backend/main.py:34 | The first `@`: none iff there is none, and no `@` comes before the one found. |
| Api.LastIndexOf | backend/main.py:34 | The last `.`: none iff there is none, and no `.` comes after the one found. |
| Api.IsMobile | backend/main.py:37-39 | Holds iff the identifier has exactly 10 characters, all of them digits. |
| Api.IsAadhar | backend/main.py:41-43 | Holds iff the identifier has exactly 12 characters, all of them digits. |
| Api.IsEmail | backend/main.py:32-35 | An accepted email contains an `@` and is at least 6 characters long (`a@b.cd`). `IsEmailIffShape` gives the full pattern. |
| Api.IsHostIffShape | backend/main.py:34 | The scanning host check holds iff the host is domain characters, a dot, and two or more letters to the end. |
| Api.IsEmailIffShape | backend/main.py:32-35 | `is_email` holds iff the identifier is `local@domain.tld`: a non-empty local part from `[A-Za-z0-9._%+-]`, a non-empty domain from `[A-Za-z0-9.-]`, and a TLD of two or more letters. |
| Api.IdentifierKindsDisjoint | backend/main.py:32-43 | No identifier is both a mobile number (10 digits) and an Aadhaar number (12 digits). An email is neither. |
| Api.StatusFor | backend/main.py:204-210 | Approved iff score ≥ 650, Under Review iff 500 ≤ score < 650, Rejected iff score < 500. Never Pending. |
| Api.StatusMessage | backend/main.py:241 | The message is "Application " followed by the stored status name ("Approved", "Under Review", "Rejected") in lower case. |
| Api.StatusAgreesWithRating | backend/main.py:204-210 | For a computed verdict, Approved means a Good or Excellent rating, Under Review means Average, and Rejected means Poor. |
| Api.FindUser | backend/main.py:55-76 | A user is found iff some user holds the value in that column, and the one found holds it. |
| Api.FindUserById | backend/main.py:139 | A user is found iff some user has that id, and the one found has it. |
| Api.FindUserUnique | backend/main.py:55-76 | In a well-formed table, looking up any user's email, mobile or Aadhaar finds that very user. |
| Api.UserIdsArePositions | backend/main.py:139-144 | In a well-formed table, an id is found iff it lies in 1..\|users\|, and it finds the user at that position. |
| Api.Resolve | backend/main.py:102-113 | Email first, then mobile, then Aadhaar: the first column that holds the identifier decides the user. Nothing is found iff no column holds it. |
| Api.InputOf | backend/main.py:185-197 | The scorer receives each of the request's eleven fields unchanged, in the right place, plus the loan-to-income ratio computed as the scorer computes it. |
| Api.HasIdentical | backend/main.py:161-177 | A stored application blocks a new one iff it belongs to the same user and all eleven input fields are equal, compared one by one as the query does. |
| Api.NewestFirst | backend/main.py:258-262 | The result holds exactly that user's applications, and no more than the table. |
| Api.NewestFirstOrdered | backend/main.py:258-260 | When the table's ids grow with insertion, the listing comes out newest first (ids strictly decreasing). |
| Api.UserDataOf | backend/main.py:290-300 | The advisor's data is the newest application's score and its seven figures, each taken from the matching column. |
| Api.ValidatedAdvice | backend/schemas.py:43-49 | For a validated request, "Build Credit History" never appears, and the debt advice appears iff loan > 3 × income. |
| Api.ValidatedScorerInput | backend/schemas.py:43 | For a validated request, the scorer's ratio is loan/income and positive, so its zero-income fallback is never taken. |
| Api.StoredLatestValid | backend/main.py:277-288 | Every stored request passed validation, so the newest application the advisor reads is a valid one. |
| Api.AppendUser | backend/main.py:79-89 | Appending a user with the next id, a valid name and three unused keys keeps the user table well formed, so the keys stay unique. |
| Api.AppendApplication | backend/main.py:212-234 | Appending a scored, valid, non-duplicate application with the next id keeps the application table well formed. |
| Api.LoanService.constructor | backend/main.py:18-30 | The service starts with empty tables, which satisfy the invariant. |
| Api.LoanService.Signup | backend/main.py:49-95 | Validation errors (422), then the email, mobile and Aadhaar duplicate checks (400) with their messages, in that order. The email check uses the normalised address. Any failure leaves the tables unchanged. Success appends exactly one user, with the next id, the normalised email and the request's other fields, and the invariant (uniqueness included) is kept. |
| Api.LoanService.Login | backend/main.py:97-132 | 401 "User not found" iff the ordered lookup finds nobody. 401 "Invalid password" iff the stored password differs. Otherwise "Login successful" with that user. |
| Api.LoanService.GetUser | backend/main.py:134-146 | 404 unless the id is a stored user's. Otherwise that user, without the password. |
| Api.LoanService.ApplyForLoan | backend/main.py:148-244 | 422 for an invalid request, then 404 for an unknown user, then 400 for an identical application, and no record is added in those cases. On success exactly one record is appended. It carries the next id, the request, the scorer's verdict and the status for its score. The message is "Application <status>" and the ratio is loan/income. |
| Api.LoanService.GetUserApplications | backend/main.py:246-262 | 404 for an unknown user. Otherwise that user's applications and no others, newest first. |
| Api.LoanService.GetImprovementSuggestions | backend/main.py:264-315 | 404 for an unknown user. With no applications: success false, the fixed message, no suggestions. Otherwise success, the message "Credit improvement suggestions generated successfully", the newest application's score, the number of applications, and the advisor's suggestions for the newest application over the whole history. |

## Left out

- Concurrency: each handler is modelled as one atomic step. In the source, `signup` and `apply_for_loan` are plain `def` endpoints that run on a thread pool, each with its own database session, and each checks first and inserts in a later statement (backend/main.py:55-89, backend/main.py:162-234). Two overlapping identical applications can both pass the duplicate query at backend/main.py:162-175 and both be stored, because backend/models.py puts no constraint on those columns. So "no user has two identical applications" holds only for requests that do not overlap. For users, the `unique=True` columns (backend/models.py:11-13) stop the second of two overlapping signups with the same email, mobile or Aadhaar number. It fails with an unhandled integrity error, a 500, and not with the model's 400.
- Frontend pages (React rendering, routing, local storage, display formatting) are not part of this model. The admin endpoints those pages call do not exist in the backend and are not invented here.
- The language-model advisor (backend/credit_improvement.py:166-230) is a foreign call that parses the model's JSON. It is an uninterpreted function parameter, and its own fallback to the default advice on an exception is inside that parameter. The `GEMINI_API_KEY` environment variable is an `Option<string>` parameter.
- Database and framework plumbing is left out: sessions, commit/refresh, `from_orm`, CORS and server start-up. The tables are the two sequence fields of `LoanService`. Ids are assigned 1, 2, … in insertion order, with no deletions. "Newest first by `created_at`" is modelled as reverse insertion order, so timestamp ties are not modelled.
- `created_at` is not modelled in responses. The user response is every stored column except the password.
- Api.LoanService.Signup: Pydantic's `EmailStr` validity check on the signup email is not modelled, so any string is accepted there. Its normalisation (lower-cased domain, stripped blanks, `Name <addr>` reduced to `addr`) is a function parameter `normalizeEmail` with no definition. The model applies it before the email duplicate check and stores its result, as the source does (backend/schemas.py:8, backend/main.py:55, backend/main.py:81). Login then compares the identifier with that stored form (backend/main.py:105), so an address typed with an upper-case domain matches nobody by email.
- Signup does not check the shape of the mobile or Aadhaar number. The source declares them as plain strings and does not call `is_mobile` or `is_aadhar`, so the model accepts any string too.
- `passwords_match` when the password field itself failed validation is not modelled. Both fields are plain strings, so that case cannot arise here.
- Api.IsEmail: Python's `re.match` with `$` also accepts one trailing newline. The model uses the plain anchored pattern and does not reproduce that quirk.
- Api.IsMobile, Api.IsAadhar: `str.isdigit` accepts every Unicode digit. The model accepts only ASCII `0`–`9`.
- `is_email`, `is_mobile` and `is_aadhar` are modelled and related to each other, but login (backend/main.py:102-113) does not call them: it queries the three columns in turn, as `Resolve` does.
- PredictionHelper.CalculateCreditScore: the source's parameters `base_score=300` and `scale_length=600` (backend/prediction_helper.py:28) are fixed constants here, because `predict` never passes other values.
- Amounts and ratios are exact reals, not IEEE doubles. The score `int(300 + (1 − p)·600)` is stated over reals, and its closed form is 900 − 6·min(risk, 99).
- Suggestion descriptions with an interpolated number are kept as (text before, number, text after). Python's float/int formatting is not modelled.
- The 500 "Prediction failed" path of apply_for_loan is not modelled: the scorer is total on every input, so the path cannot be reached.
- The advisor's `.get` defaults are not modelled: the caller always supplies every key, so they never apply.
- Passwords are stored and compared in plain text, as in the source; this is string equality.

