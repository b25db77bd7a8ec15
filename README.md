# fraud-scout-lite core, modelled in Dafny

fraud-scout-lite is a small browser application for fraud-risk assessments
of companies. An analyst picks a company, fills in an assessment (risk
factors, country, revenue band), stores it, and runs a deterministic scoring
engine that writes a 0–100 risk score, a tier, reasons and red flags back
onto the record. This project models the core of that application:

- `scoring.dfy` (module `Scoring`): the scoring engine. `Score` is a
  declarative reference definition (factor sum, jurisdiction bonus, band
  points, severe-combination bonus, clamp to 100, tier, reasons, red flags).
  `CalculateRiskScore` is the engine as the source writes it: a loop
  accumulating a running score and a reasons list, then the bonuses, the
  clamp and the tier. It is proved to compute exactly `Score`. Lemmas state
  the range, the tier table, which red flags are raised and when, that
  appending a factor never lowers the score, that reordering factors keeps
  score, tier and flags, and the worked cases of the unit tests.
- `datalayer.dfy` (module `DataLayer`): the persistence layer as a class
  `Store` whose fields are the three stored keys. A key that was never
  written reads as an empty list, or as no settings. Lookups by identifier
  are first-match searches (`FindIndex`); `updateAssessment` is a merge of a
  partial record (`AssessmentPatch`, one `Option` per field) over the first
  matching record; reset and first-load initialisation reseed the companies.
- `scoring_flow.dfy` (module `ScoringFlow`): the write-back performed by the
  assessment detail screen, and the proof that scoring a second time changes
  only the scoring time stamp (nothing at all with the same clock value).
- `newassessment.dfy` (module `NewAssessment`): toggling a risk-factor
  checkbox and the record the new-assessment form submits.
- `companies.dfy` (module `Companies`): the company search filter
  (case-insensitive substring match on four fields).
- `types.dfy`, `seqs.dfy`, `text.dfy`: the records, order-preserving
  filtering and weighted sums over sequences, decimal rendering of numbers,
  ASCII lower-casing and substring search.

Risk factors, revenue bands and countries are kept as strings, so a label
outside the scoring tables is scored as the code scores it (0 points, still
listed as a reason).

Duplicate factors are counted as the code counts them: every occurrence of a
factor adds its points and its own reason (src/data/scoring.ts:36-40), and
every occurrence of a severe factor counts toward the severe combination
(src/data/scoring.ts:54-57). So `["Offshore Entities", "Offshore Entities"]`
in Panama with band `> $1B` scores 25 + 25 + 20 + 5 + 10 = 85, tier Critical
(`DuplicateFactorCountsTwice`), the same bookkeeping as the arithmetic
comment of the second scoring test (tests/scoring.test.ts:38).

## Model

| member | source | states |
|---|---|---|
| Scoring.CalculateRiskScore | src/data/scoring.ts:30-75 | the step-by-step engine returns exactly the reference result `Score(a)`; its score is within [0, 100] and it gives one reason per factor plus one for the band |
| Scoring.ScoreInRange | src/data/scoring.ts:62-63 | the score is within [0, 100]; it equals the unclamped total below 100 and is 100 otherwise |
| Scoring.TierThresholds | src/data/scoring.ts:65-67 | each tier holds exactly on its score interval: Critical from 75, High on [50, 75), Medium on [25, 50), Low below 25 |
| Scoring.TierMonotone | src/data/scoring.ts:65-67 | a higher score never yields a lower tier |
| Scoring.ScoreTierConsistent | src/data/scoring.ts:62-74 | the reported tier is the tier of the reported (clamped) score; a score of exactly 75 is Critical |
| Scoring.ReasonsShape | src/data/scoring.ts:35-51 | the reasons are one entry per factor occurrence, in input order, with its points in decimal, followed by the band's entry |
| Scoring.UnknownLabelsScoreZero | src/data/scoring.ts:36-51 | a factor or band missing from its table contributes 0 points and is still reported as "+0 points" |
| Scoring.FlagsDiffer | src/data/scoring.ts:42-60 | the jurisdiction flag and the severe-combination flag can never be the same text |
| Scoring.JurisdictionFlagIff | src/data/scoring.ts:42-46 | the jurisdiction flag is raised if and only if the country is one of the six listed; exactly then 20 points are added |
| Scoring.TwoSevereEntriesCount | src/data/scoring.ts:53-57 | the filtered severe list has at least two entries if and only if two positions of the factor list hold severe factors |
| Scoring.SevereFlagIff | src/data/scoring.ts:53-60 | the severe flag is raised if and only if two entries are severe; the unclamped total is the factor sum plus band points plus 20 for a listed country plus 10 for a severe combination |
| Scoring.RedFlagsOrder | src/data/scoring.ts:42-60 | there are at most two red flags; only the two known texts appear; when both do, the jurisdiction flag comes first |
| Scoring.AppendFactorMonotone | src/data/scoring.ts:36-60 | appending a factor never lowers score or tier, and inserts exactly that factor's reason before the band's |
| Scoring.OrderIndependent | src/data/scoring.ts:36-60 | factor lists that are permutations of each other give the same score, tier and red flags |
| Scoring.ScoreReadsOnlyInputs | src/data/scoring.ts:30-75 | two assessments with the same factors, country and band score identically, whatever their identity, status or timestamps |
| Scoring.FactorTable | src/data/scoring.ts:12-20 | the points of each of the seven risk factors |
| Scoring.BandTable | src/data/scoring.ts:22-28 | the points of each of the five revenue bands |
| Scoring.MinimalFactorsScoreLow | tests/scoring.test.ts:6-22 | Rapid Growth in the United States with band $1M–$10M scores 20, tier Low, with the reasons "Rapid Growth (+10 points)" and "Revenue band $1M - $10M (+10 points)" and no red flag |
| Scoring.SevereFactorsCapped | tests/scoring.test.ts:24-42 | three severe factors in the Cayman Islands with band $100M–$1B total 115, clamp to 100, tier Critical, with the red flags "Operations in high-risk jurisdiction: Cayman Islands" then "Multiple severe risk factors identified" |
| Scoring.DuplicateFactorCountsTwice | src/data/scoring.ts:36-60 | a factor listed twice is scored twice, reported twice and counts twice toward the severe combination: 85, Critical, both flags |
| Text.NatToStringRoundTrip | src/data/scoring.ts:39 | the decimal rendering used in the reasons reads back as the same number |
| Text.NatToStringInjective | src/data/scoring.ts:39 | different point values render as different text |
| Text.Lower | src/screens/Companies.tsx:12 | lower-casing keeps the length and maps each character to its ASCII lower case |
| Text.LowerIdempotent | src/screens/Companies.tsx:12-18 | lower-casing an already lower-cased string changes nothing |
| Text.SameUpToCaseLower | src/screens/Companies.tsx:12 | strings that differ only in letter case lower-case to the same string |
| Text.Contains | src/screens/Companies.tsx:15-18 | the substring test holds if and only if the needle occurs at some position of the text |
| DataLayer.FindIndex | src/data/dataLayer.ts:53-56 | none if and only if no record carries the identifier; otherwise a position holding it, before which no record does |
| DataLayer.FindIndexAppend | src/data/dataLayer.ts:47-51 | a record appended after records with other identifiers is found at the end |
| DataLayer.Merge | src/data/dataLayer.ts:57 | each field present in the patch replaces the record's field; each absent one is kept |
| DataLayer.MergeIdentityAndIdempotence | src/data/dataLayer.ts:57 | an empty patch changes nothing; applying the same patch twice equals applying it once |
| DataLayer.UpdatedList | src/data/dataLayer.ts:53-60 | the list keeps its length; without a match it is unchanged; otherwise only the first match is replaced, by its merge with the patch |
| DataLayer.UpdateKeepsLookup | src/data/dataLayer.ts:53-60 | a patch that keeps the identifier keeps the updated record at the position a lookup finds |
| DataLayer.Store.constructor | src/data/dataLayer.ts:14-33 | a store never written to holds no companies, no assessments and no settings |
| DataLayer.Store.SetCompanies | src/data/dataLayer.ts:20-22 | replaces the company list and nothing else |
| DataLayer.Store.GetCompanyById | src/data/dataLayer.ts:24-26 | none if and only if no company has the identifier; otherwise the first company that has it |
| DataLayer.Store.GetAssessmentById | src/data/dataLayer.ts:39-41 | none if and only if no assessment has the identifier; otherwise the first assessment that has it |
| DataLayer.Store.GetAssessmentsByCompany | src/data/dataLayer.ts:43-45 | an order-preserving sub-list of the assessments in which each assessment of the company occurs exactly as often as in the store and no other assessment occurs |
| DataLayer.Store.GetSettings | src/data/dataLayer.ts:63-69 | the stored settings, or dataset version A and app version 1.0.0 when none are stored |
| DataLayer.Store.CreateAssessment | src/data/dataLayer.ts:47-51 | the assessment is appended after the existing ones; companies and settings are unchanged |
| DataLayer.Store.UpdateAssessment | src/data/dataLayer.ts:53-60 | the assessment list becomes `UpdatedList` of the old list; companies and settings are unchanged |
| DataLayer.Store.ResetDemoData | src/data/dataLayer.ts:76-82 | the companies become the seed of the requested version (or the stored one), assessments are emptied, and the settings keep their other fields with that version recorded |
| DataLayer.Store.InitializeData | src/data/dataLayer.ts:85-90 | with no companies the store is reset to dataset version A; otherwise nothing changes |
| ScoringFlow.ScoringWriteBack | src/screens/AssessmentDetail.tsx:24-40 | after scoring and write-back only the scored record changes: status Scored, the result fields filled in, the score in range and its tier, identity and inputs kept |
| ScoringFlow.RescoringIsStable | src/screens/AssessmentDetail.tsx:24-40 | scoring an assessment again at any clock value changes only its scoring time stamp; with the same clock value the stored list is unchanged |
| NewAssessment.ToggleRiskFactor | src/screens/NewAssessment.tsx:46-52 | an unchecked factor is appended; a checked one is removed, every occurrence, the rest kept in order; the factor is present afterwards if and only if it was absent before; on removal every other factor keeps its number of occurrences |
| NewAssessment.ToggleKeepsOthers | src/screens/NewAssessment.tsx:46-52 | toggling never changes the other selected factors or their order |
| NewAssessment.ToggleTwiceRestores | src/screens/NewAssessment.tsx:46-52 | checking and then unchecking a factor restores the selection |
| NewAssessment.ToggleKeepsDistinct | src/screens/NewAssessment.tsx:46-52 | a selection without repeats stays without repeats |
| NewAssessment.SubmittedAssessment | src/screens/NewAssessment.tsx:57-67 | the submitted record is Open, carries the form's fields and the company's identifier, and has no scoring fields |
| NewAssessment.Submit | src/screens/NewAssessment.tsx:54-69 | submitting appends that record to the stored assessments and changes nothing else |
| Companies.FilterCompanies | src/screens/Companies.tsx:10-20 | an empty term shows every company; otherwise an order-preserving sub-list in which each matching company occurs exactly as often as in the list and no other company occurs |
| Companies.ShownIff | src/screens/Companies.tsx:13-19 | a company is shown if and only if it is listed and its name, industry, country or region contains the term, ignoring ASCII case |
| Companies.SearchIgnoresCase | src/screens/Companies.tsx:12 | terms that differ only in letter case show the same companies |
| Companies.FieldValueFindsCompany | src/screens/Companies.tsx:10-20 | a search term equal to a company's name up to ASCII letter case, the empty name included, shows that company |

## Left out

- Browser storage and JSON encoding: the three stored keys are the fields of
  `Store`, read and written directly. Unparsable stored text is not modelled.
- The demo company data (the seed module is not part of this model): the
  seed lists are a parameter of the store, one list per dataset version.
- Clocks: the identifier `a-<time>`, the creation time and the scoring time
  come from the caller as parameters.
- React rendering, routing, form validation, the simulated scoring delay and
  the page reload; the "company not found" and "assessment not found" screens.
- Scoring.CalculateRiskScore: a factor or band that names a built-in object
  property (such as "toString") is scored 0 in the model; in the source the
  table lookup would find the inherited property instead.
- Text.Lower: ASCII letters only; other Unicode case mappings are not
  modelled.
- DataLayer.Merge: a patch field that is present but explicitly undefined is
  not modelled; a field is either present with a value or absent.
- The other screens (company detail, admin) and the header are context only.
