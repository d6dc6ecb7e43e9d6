# Guangdong job recommender: scoring and ranking core in Dafny

This project models the rule engine of a job recommender for the province of Guangdong
(`main.py`, class `JobRecommender` and the blocks around it), and proves properties of
that model. The engine works in five stages:

- **Normalisation.** It cleans a listing table: the salary bounds default to 0, 平均薪资
  is their mean, and the seven text columns are made present and non-null.
- **Education filter.** It drops every listing whose education requirement is above the
  user's level.
- **Scoring.** It scores each remaining listing on seven dimensions: education,
  experience, professional fit, salary, city, stability and growth.
- **Ranking.** It combines the seven scores into a weighted composite (综合得分), builds a
  rationale string (推荐理由), and sorts by composite, highest first.
- **Weights and display.** The weight vector comes from two questionnaire answers. The
  results step then keeps a shortlist and shortens the location names for display.

Modules, one per component of the program:

- `Text`: the Python string operations the engine relies on, on `seq<char>`. These are
  `p in s`, `s[:n]`, `s.split(sep)[0]`, `s.replace(p, "")`, `str.isspace` and
  `sep.join`. The empty string is contained in every string, as in Python.
- `Records`: the listing, profile, weight, score-vector and scored-row values.
- `Eligibility`: the education level map, the two lookups and the hard filter.
- `Scorers`: the seven scorers. Those the source writes as loops are methods proved
  against a declarative definition: professional fit (two loops with `break`), stability
  (an early return) and growth (a counting loop).
- `Ranker`: the composite score, `get_reason` (a method appending tags), a scored row,
  the scoring pass over a table and the descending sort.
- `Recommender`: the class `JobRecommender`. It holds the cleaned table as column
  fields. Its constructor runs the text-cleaning loop, and `CalculateScores` runs filter,
  scoring pass and sort.
- `WeightDeriver`: the weight record updated in place by the branch the first answer
  selects, then overwritten for 专业 by the slider.
- `Presentation`: the shortlist rule and `smart_location_name`.
- `Scenario`: a worked example (a sales-manager listing in Tianhe, Guangzhou), traced
  through every scorer, the composite and the rationale, and proved end to end through
  the class.
- `Numbers`: `min` on integers and reals.

Floats are modelled as `real`, so the model computes the salary ratio and the composite
exactly. `int(10 + q2 / 100 * 15)` becomes `Floor` on a real value, which is exact.

## Model

| member | source | states |
|---|---|---|
| Text.ContainsIff | main.py:112 | Python's `p in s` (Contains) holds exactly when `p` occurs at some position of `s` |
| Text.ContainsChars | main.py:112 | every character of a contained pattern is a character of the text |
| Text.Take | main.py:116 | `ind[:2]` has length min(len, 2) and is a prefix of `ind` |
| Text.FirstToken | main.py:76 | `split('/')[0]` is a prefix free of '/', followed by '/' when shorter than the text |
| Text.FirstTokenAt | main.py:76 | the first token is exactly the text up to the first '/' |
| Text.RemoveAll | main.py:369 | `replace(p, "")` never makes a string longer |
| Text.RemoveAllAbsent | main.py:372-373 | removing a pattern that does not occur leaves the string unchanged |
| Text.Join | main.py:195 | joining the tags with a separator starts with the first tag, so the result is non-empty when that tag is |
| Recommender.FillZero | main.py:46-47 | each salary cell is the coerced number, or 0 where coercion gave nothing |
| Recommender.FillEmpty | main.py:53 | every text cell is present afterwards, existing cells are kept and missing ones are '' |
| Recommender.CleanText | main.py:50-55 | the column set becomes the old columns plus the seven text columns; each text column is cleaned, or all '' when it was missing; other columns are unchanged |
| Recommender.JobRecommender.constructor | main.py:43-55 | the table keeps its height; salary columns are FillZero of the raw columns; 平均薪资 is their mean; the text columns are as CleanText leaves them; no column named 薪资下限, 薪资上限 or 平均薪资 remains among the text columns, since `__init__` overwrites those three (a re-uploaded export carries 平均薪资); every other column is kept |
| Recommender.JobRecommender.Row | main.py:48 | row `i` carries label `i`, and its average salary is the mean of its bounds |
| Recommender.JobRecommender.Rows | main.py:44 | the cleaned table has one listing per row, labelled in row order |
| Recommender.JobRecommender.CalculateScores | main.py:57-200 | the result is sorted by composite, highest first, and is a permutation of the scored eligible rows |
| Recommender.ScoredTableFacts | main.py:79-197 | a row is in the scored table iff it scores an eligible listing; every row has listing level at most the user's; its education score is 100 iff the levels are equal, else 85; its scores are in range; its rationale is non-empty |
| Eligibility.UserEduLevel | main.py:70 | the user's level is a value of the map, or the default 3; both are in 0..6 |
| Eligibility.JobEduLevel | main.py:73-77 | the listing's level, from its first '/'-token with default 0, lies in 0..6 |
| Eligibility.Eligible | main.py:79-83 | a listing survives iff its level is at most the user's; survivors form a sub-multiset of the rows |
| Eligibility.EligibleAppend | main.py:83 | filtering a concatenation filters each part, so survivors keep their relative order |
| Eligibility.EligibleSingle | main.py:83 | one row survives exactly when it is eligible |
| Eligibility.BachelorExamples | main.py:62-83 | for "大学本科", a "本科/硕士" listing is kept (only "本科" is read) and a "硕士" listing is dropped |
| Eligibility.SecondaryAnswerDefaults | main.py:70 | the answer "中专/高中" is not a key, so it gets level 3 and sees "大学专科" listings |
| Eligibility.UnknownRequirementPasses | main.py:76-77 | a requirement whose first token is not a key never blocks anyone |
| Scorers.EduScore | main.py:86-89 | the education score is 100 or 85 |
| Scorers.ExpScore | main.py:94-99 | the experience score is in {60, 70, 90, 100}; it is 100 iff the text has "无" or "不限", or the user is "应届生" and the text has "应届"; 60 only for "应届生"; 70 and 90 only for others |
| Scorers.ProfessionalScore | main.py:107-121 | the professional score lies in 0..100 |
| Scorers.ScoreProfessional | main.py:107-121 | the two loops with `break` and the major test compute ProfessionalScore: 50 for some keyword in the title, 30 for some matching preferred industry, 20 for the major, capped |
| Scorers.ProfessionalValues | main.py:107-121 | the cap never bites: the score is the plain sum of the three terms, one of {0, 20, 30, 50, 70, 80, 100} |
| Scorers.EmptyMajorEarns | main.py:119-120 | an empty major is in every title, so it always earns the 20 points |
| Scorers.EmptyIndustryMatches | main.py:115-118 | an empty listing industry matches any preferred industry, earning 30 when the user named one |
| Scorers.SalaryScore | main.py:126-127 | the salary score is 40, or in [90, 120]; it is 40 iff the average is below 90% of the expectation |
| Scorers.SalaryMonotone | main.py:127 | a higher average salary never scores lower |
| Scorers.SalaryAtExpectation | main.py:127 | an average equal to the expectation scores 100 |
| Scorers.CityBase | main.py:135-143 | the priority chain yields one of 40, 60, 85, 90, 100 |
| Scorers.CityScore | main.py:133-147 | the city score lies in 40..120; near home (non-empty district in the location) it is the chain value plus 20, capped at 120; otherwise it is the chain value |
| Scorers.CityFirstMatchWins | main.py:136-137 | a match on the first city fixes the score (100, or 120 near home) whatever the later cities are |
| Scorers.CityFirstThree | main.py:136-143 | only the first three preferred cities are ever consulted |
| Scorers.StabilityScore | main.py:152-158 | the stability score is 100 or 60 |
| Scorers.ScoreStability | main.py:154-158 | the early-return loop gives 100 iff some stable keyword occurs in name ++ nature, else 60 |
| Scorers.GrowthScore | main.py:163-169 | the growth score is one of 60, 75, 90, 100 |
| Scorers.HitsStep | main.py:167-168 | each new keyword adds one hit exactly when it occurs in the title |
| Scorers.ScoreGrowth | main.py:165-169 | the loop computes min(100, 60 + 15·k), where k is the number of distinct growth keywords in the title |
| Scorers.GrowthSaturates | main.py:169 | three growth keywords already reach the cap of 100 |
| Ranker.CompositeExpanded | main.py:174-182 | the composite is Σ score·weight over the seven dimensions, divided by 100 |
| Ranker.CompositeBounds | main.py:174-182 | with non-negative weights, the composite lies between 0 and 1.2 times the weight total |
| Ranker.CompositeUniform | main.py:174-182 | equal scores c give c·total/100, so weights summing to 100 reproduce c |
| Ranker.GetReason | main.py:185-195 | the appending method yields the tags in source order, joined by " \| ", or "✅ 综合条件匹配" when there are none |
| Ranker.TagHeads | main.py:188-194 | every tag is non-empty and starts with its own emoji, never with the fallback's |
| Ranker.ReasonFallback | main.py:195 | the rationale is never empty; it is the fallback exactly when no tag condition holds |
| Ranker.LocationTagsExclusive | main.py:187-190 | the near-home tag and the city-match tag never appear together |
| Ranker.ScoreDims | main.py:86-171 | the seven scores of a listing are each within the range its scorer guarantees |
| Ranker.ScoreListing | main.py:79-197 | the scored row built with the loop scorers and GetReason equals the declarative ScoreRow |
| Ranker.ScoreAll | main.py:79-197 | the scored table has one row per input listing, in order, each carrying its listing |
| Ranker.ScoreTable | main.py:79-197 | the row-by-row scoring pass computes ScoreAll |
| Ranker.Insert | main.py:200 | insertion adds exactly one row: the length grows by one and the multiset gains `x` |
| Ranker.SortedCons | main.py:200 | a row scoring at least the head of a descending sequence can be put in front of it |
| Ranker.InsertSorted | main.py:200 | insertion into a descending sequence keeps it descending |
| Ranker.SortDesc | main.py:200 | `sort_values(ascending=False)` gives a descending permutation of its input |
| WeightDeriver.PriorityOf | main.py:308-318 | exactly one branch fires: salary iff "薪资" occurs, else growth iff "成长" occurs, else stability iff "稳定" occurs |
| WeightDeriver.SalaryOptionSelects | main.py:295-296 | the first radio option selects the salary branch |
| WeightDeriver.GrowthOptionSelects | main.py:295-296 | the second radio option selects the growth branch |
| WeightDeriver.StabilityOptionSelects | main.py:295-296 | the third radio option selects the stability branch |
| WeightDeriver.DeriveWeights | main.py:307-324 | 专业 is ⌊10 + 15·q2/100⌋, in 10..25; the other six weights are the base vector adjusted by exactly the branch Q1 selects; the total is 85 plus 专业; no weight is negative |
| WeightDeriver.SalaryFirstAtFifty | main.py:307-324 | "薪资" with the slider at 50 gives 学历 10, 经验 10, 专业 17, 薪资 40, 城市 15, 潜力 10, 稳定 0 |
| Presentation.HighScoring | main.py:362 | the high-scoring rows are exactly the rows with composite ≥ 80, as a sub-multiset |
| Presentation.Shortlist | main.py:362-364 | the shortlist is sorted; it is a permutation of the high-scoring rows, or of the first min(20, n) rows when there are none |
| Presentation.ShortlistLength | main.py:362-364 | the shortlist has one row per high-scoring row, or min(20, n) rows |
| Presentation.ShortlistHigh | main.py:362-363 | when some row reaches 80, every shortlisted row does |
| Presentation.ShortlistBest | main.py:363-364 | with no row at 80 and sorted results, no row left out scores higher than a shortlisted one |
| Presentation.StripNames | main.py:371-373 | removing the city names never lengthens the location |
| Presentation.DisplayArea | main.py:368-374 | the displayed area is never blank; it is "市辖区/全城" or no longer than the location |
| Presentation.SmartLocationName | main.py:368-374 | the loop that removes a city only when it occurs computes DisplayArea |
| Presentation.TianheWithoutProvince | main.py:369 | removing "广东省" from "广东省广州市天河区" leaves "广州市天河区" |
| Presentation.TianheWithoutCity | main.py:371-373 | removing "广州市" from "广州市天河区" leaves "天河区" |
| Presentation.TianheArea | main.py:368-374 | "广东省广州市天河区" is shown as "天河区" to a user who prefers 广州市 |
| Scenario.ExampleEdu | main.py:76-89 | "本科" against "大学本科" is an exact level match: education score 100 |
| Scenario.ExampleProfessional | main.py:107-121 | "销售经理" in 互联网/计算机/软件 for a 市场营销 sales candidate scores 80 (title 50, industry 30, no major) |
| Scenario.ExampleCity | main.py:133-147 | "广东省广州市天河区" for 广州市 with district 天河 scores 120 (100 + 20) |
| Scenario.ExampleStability | main.py:154-158 | "XX科技有限公司" + "民营" has no stable keyword: 60 |
| Scenario.ExampleGrowth | main.py:165-169 | "销售经理" has no growth keyword: 60 |
| Scenario.ExampleDims | main.py:86-171 | the example's seven scores are 100, 100, 80, 100, 120, 60, 60 |
| Scenario.ExampleComposite | main.py:174-182 | those scores under the base weights give composite 94.0 |
| Scenario.ExampleReason | main.py:185-195 | the example's rationale is "🏠 离家近(天河) \| 🎯 专业对口" |
| Scenario.ExampleRow | main.py:86-197 | the example row scores composite 94.0, with that rationale |
| Scenario.ExampleColumns | main.py:46-55 | cleaning the one-row example table yields the example's cells and salary bounds |
| Scenario.ExampleRows | main.py:43-55 | the cleaned example table holds exactly the example listing |
| Scenario.ExampleEligible | main.py:76-83 | the example listing passes the filter of a "大学本科" user |
| Scenario.OneRow | main.py:83-200 | a one-row table with an eligible row scores to exactly that row, whatever the sort does |
| Scenario.ExampleRun | main.py:43-200 | constructing the recommender on the raw example table and calling CalculateScores returns one row: 平均薪资 8000, composite 94.0, the expected rationale |

## Left out

- The questionnaire UI, the step state machine and `st.session_state` (main.py:207-347). These are presentation state. The profile and the weights are parameters.
- CSV upload and `pd.read_csv` (main.py:211-219, 351-356). These are I/O. The raw table is a `RawFrame` value.
- The parsing inside `pd.to_numeric(errors='coerce')` (main.py:46-47). A raw salary cell is an optional number that is absent when coercion fails.
- A table without the columns 薪资下限 or 薪资上限, for which the source raises a KeyError. A `RawFrame` always carries both columns.
- `str()` of non-text cells (main.py:76, 95, 109-110, 134, 155, 168, 369). Text cells are modelled as strings, so a numeric cell's string form is not modelled.
- Profile keys missing from `user_profile`, which raise a KeyError in the source. `district` defaults to '' and is always present in the model.
- The progress animation with `time.sleep` (main.py:327-338). It is timing only.
- The charts, the salary binning, the group-by means, `value_counts`, the styling, the `岗位ID` formatting and the CSV export (main.py:379-501). These are display aggregation done through library calls.
- Floating-point rounding. Salary ratios and composites are exact reals.
- Scorers.SalaryScore: requires an expectation above 0. The questionnaire enforces at least 1000 (main.py:247), so the division by zero is not modelled.
- Ranker.SortDesc: promises no order among equal composites, because pandas' default `sort_values` is not stable. The same holds for Presentation.Shortlist.
- No notion of row aliasing or of `df.copy()` (main.py:44, 58). Listings are values, so copies cannot be told apart.
