# Loan predictor and dashboard figures — a Dafny model

This project models the decision logic of the FinTech Nexus Streamlit app
(`Project_app.py`). The app is a single script, and two pieces of it compute
anything:

- **The eligibility rule of the "Loan Predictor" tab.** The form collects a
  monthly income, a co-applicant income, a loan amount in thousands, a
  credit-history option and a property area. From these the rule computes:
  - a credit score: 1.0 when the option's text contains `"1.0"`, else 0.0;
  - the combined income;
  - a loan-to-income ratio: the loan over the income in thousands, or the
    sentinel 100 when the combined income is not positive.

  A three-armed `if/elif/else` then sets `approved` and draws a "probability"
  from [85, 98), [45, 65) or [10, 30). Last, it derives the result card's
  texts and colours.
- **The sidebar filter and the dashboard's metric cards.** The filter keeps the
  rows whose property area is selected. The cards show the loan volume, the
  number of rows with credit history 1 and the number of applicants.

Both pieces are pure, so the model is made of datatypes, functions and lemmas.
It has three modules:

- `Text`: Python's substring test `needle in s`, with a proof that the
  left-to-right search agrees with "occurs at some index".
- `Eligibility`: the applicant record, the ratio, the decision, the draw and
  the result card.
- `Dashboard`: the rows, the filter and the three figures.

**The random draw.** `np.random.uniform(lo, hi)` scales a unit sample as
`lo + (hi - lo) * u`. The model takes the unit sample `u`, with `0 <= u < 1`,
as a parameter of `Assess`. The arm's band then follows as a theorem.

**Arithmetic.** The ratio is an exact `real`. Python computes it in
floating point, so the model idealises the division. Under exact arithmetic
the threshold reduces to integers: with positive income, the ratio is below 50
exactly when `20 * loan < income`.

**Notes on the code's behaviour.**
- The form's number inputs (Project_app.py:318-320) have no lower bound, so
  the model accepts every integer. `NegativeLoanApproved` proves one
  consequence: a negative loan with clear credit and positive income is
  always approved.
- The credit input is the option's text, tested for the substring `"1.0"`
  (Project_app.py:331).
- The credit-check cell on the result card is painted with the status colour
  (`Project_app.py:366`), not with a colour of its own. So "PASS" shows in red
  when good credit is rejected for its ratio. `Render` has no separate
  credit-cell colour for that reason.

## Model

| member | source | states |
|---|---|---|
| `Text.Contains` | Project_app.py:331 | Python's `needle in s`: a needle is only found in a string at least as long, and the empty needle is always found |
| `Text.ContainsIffOccurs` | Project_app.py:331 | Python's `needle in s` is true exactly when `needle` equals some window `s[i..i+|needle|]` (both directions) |
| `Eligibility.CreditScore` | Project_app.py:331 | the credit score is 1.0 or 0.0, and it is 1.0 exactly when "1.0" occurs in the selected option |
| `Eligibility.CreditLabels` | Project_app.py:321-331 | "Clear (1.0)" scores 1.0 and "Debts (0.0)" scores 0.0 |
| `Eligibility.Ratio` | Project_app.py:332-333 | without positive combined income the ratio is the sentinel 100; otherwise the ratio times the income equals 1000 times the loan |
| `Eligibility.RatioCases` | Project_app.py:333 | the ratio is exactly 100 when the income is not positive, and exactly loan * 1000 / income otherwise |
| `Eligibility.RatioBelowLimitIff` | Project_app.py:333-336 | with positive income, ratio < 50 holds exactly when 20 * loan < income |
| `Eligibility.Decide` | Project_app.py:336-344 | the decision table: the first arm exactly for score 1.0 and ratio < 50, the second exactly for score 1.0 and ratio >= 50, the third exactly for any other score |
| `Eligibility.Uniform` | Project_app.py:338-344 | a draw scaled from a unit sample in [0, 1) lies in [lo, hi) |
| `Eligibility.Scale` | Project_app.py:338-344 | a positive band width scaled by a unit sample stays in [0, width) |
| `Eligibility.Assess` | Project_app.py:331-344 | the total is the sum of the two incomes; approval implies credit score 1.0 and ratio < 50; the probability lies in [10, 98) |
| `Eligibility.ApprovedIff` | Project_app.py:331-337 | approved exactly when the option contains "1.0", the combined income is positive and 20 * loan < combined income |
| `Eligibility.NoIncomeNeverApproved` | Project_app.py:333-343 | non-positive combined income gives ratio 100 and a rejection |
| `Eligibility.BadCreditRejected` | Project_app.py:339-344 | a credit score of 0.0 is rejected with a probability in [10, 30), whatever the incomes and the loan |
| `Eligibility.AreaIrrelevant` | Project_app.py:322-344 | changing the property area changes nothing in the assessment |
| `Eligibility.ProbabilityInBand` | Project_app.py:336-344 | approved exactly in the first arm; each arm's probability lies in its own band: [85, 98), [45, 65) and [10, 30) |
| `Eligibility.AffordableApproved` | Project_app.py:331-338 | clear credit with positive income and 20 * loan < income is approved with a probability in [85, 98) |
| `Eligibility.ClearCreditUnaffordableRejected` | Project_app.py:331-341 | clear credit with non-positive income or 20 * loan >= income is rejected with a probability in [45, 65) |
| `Eligibility.ProbabilityIdentifiesBranch` | Project_app.py:336-344 | the bands are disjoint, so the probability determines which arm ran |
| `Eligibility.SameProbabilitySameBranch` | Project_app.py:336-344 | two assessments with equal probabilities took the same arm |
| `Eligibility.Render` | Project_app.py:346-349 | "APPROVED" and the green status exactly when approved; "PASS" exactly when the score is 1; the green ratio exactly when the ratio < 50 |
| `Eligibility.DisplayAgrees` | Project_app.py:331-349 | in input terms: "APPROVED" exactly when the option contains "1.0" and 20 * loan < a positive income; "PASS" exactly when the option contains "1.0"; the green ratio exactly when 20 * loan < a positive income |
| `Eligibility.DefaultsApproved` | Project_app.py:318-338 | the form's defaults (5000, 0, 120) with clear credit give ratio 24, approval and a probability in [85, 98) |
| `Eligibility.LowIncomeRejected` | Project_app.py:333-341 | income 2000 with loan 120 and clear credit gives ratio 60 and a rejection in [45, 65) |
| `Eligibility.DefaultsWithDebtsRejected` | Project_app.py:331-344 | the defaults with debts give ratio 24 but a rejection in [10, 30) |
| `Eligibility.NegativeLoanApproved` | Project_app.py:320-337 | a negative loan with clear credit and positive income is always approved |
| `Dashboard.Filter` | Project_app.py:199 | the kept rows are no more than the input, and each is an input row whose area is selected |
| `Dashboard.FilterMembership` | Project_app.py:199 | a row is kept exactly when it is an input row and its area is selected |
| `Dashboard.FilterAppend` | Project_app.py:199 | filtering a concatenation concatenates the filtered parts, so the original order is kept |
| `Dashboard.FilterCount` | Project_app.py:199 | a selected row is kept as often as it occurs; an unselected one never |
| `Dashboard.FilterAllSelected` | Project_app.py:197-199 | when every row's area is selected (the default selection), the table is unchanged |
| `Dashboard.FilterPartition` | Project_app.py:199-216 | a selection and its complement split the applicant count, the loan volume and the credit passes between them |
| `Dashboard.CreditPass` | Project_app.py:216 | the number of credit passes is at most the number of rows |
| `Dashboard.CreditPassAppend` | Project_app.py:216 | credit passes add up over concatenation |
| `Dashboard.CreditPassAll` | Project_app.py:216 | the count equals the number of rows exactly when every row has credit history 1 |
| `Dashboard.TotalLoan` | Project_app.py:215 | the sum of the loan amounts is non-negative when every amount is |
| `Dashboard.TotalLoanAppend` | Project_app.py:215 | loan volume adds up over concatenation |
| `Dashboard.TotalLoanFilterBounded` | Project_app.py:199-215 | with non-negative amounts, the filtered loan volume lies between 0 and the unfiltered volume |
| `Dashboard.Summarize` | Project_app.py:215-231 | credit passes <= applicants <= rows for the figures of any selection |

## Left out

- The page configuration, the CSS theme and all HTML markup (Project_app.py:7-152, 184-187, 220-226, 352-376). They are presentation only.
- The data generator (Project_app.py:156-174). It draws seeded NumPy random columns, and its only contract is the value ranges. `Row` keeps only the columns the filter and the modelled figures read (loan amount, credit history, property area); the incomes, the loan term, gender, marriage, dependants, self-employment and education are dropped.
- The Plotly charts and the Streamlit widgets, tabs, columns and button (Project_app.py:192-305, 313-326). The form values enter the model as the fields of `Applicant`.
- The randomness of `np.random.uniform`. The unit sample is a parameter. Because every function is deterministic, the same inputs and the same sample always give the same report.
- Floating-point rounding in the ratio and in the scaled draw. The model uses exact reals, so it does not capture a float draw that rounds up to the band's upper end.
- RatioBelowLimitIff, ApprovedIff, AffordableApproved, ClearCreditUnaffordableRejected and DisplayAgrees hold of the exact-arithmetic ratio only: when 20 * loan equals the income, the float ratio computed by the program can land on either side of 50, so at that boundary the program's decision may differ from these lemmas.
- The mean applicant income (Project_app.py:214) and all `:.1f` and `:,.0f` formatting. These are floating-point display concerns.
- The multiselect's list of areas. `isin` only asks about membership, so the selection is a set.
