# Market Scout assessment engine in Dafny

Market Scout is a single-page survey. The user types an industry or product
name, rates ten statements on a five-point scale from "--" (-2) to "++" (+2),
and gets one point on a quadrant chart. The y coordinate is the sum of the
five price-sensitivity ratings. The x coordinate is the sum of the five
friction-to-adopt ratings. A short reading of the quadrant goes with the point.

This project models the logic of `src/App.jsx` and proves properties of it:

- `catalogue.dfy` (module `Catalogue`): the ten questions `p1..p5` and
  `f1..f5`, and the rating values -2..2.
- `scoring.dfy` (module `Scoring`): the rating lookup, where an unanswered
  question counts as 0. It also holds the two category sums, written as the
  left folds the source uses, the completion test on the number of answered
  ids, and the plotted result, which exists only on the result screen. A
  sequence of rating clicks is modelled too, to show that only the last
  click on each question matters.
- `quadrant.dfy` (module `Quadrant`): the if/else chain that picks one of four
  quadrant titles and descriptions.
- `names.dfy` (module `Names`): JavaScript's `String.prototype.trim`. It strips
  ECMAScript WhiteSpace and LineTerminator characters from both ends. The
  start button uses it as its guard.
- `app.dfy` (module `App`): class `Assessment`. Its fields are `step`,
  `industryName` and `scores`, the three pieces of component state. Each
  handler is a method that updates them in place. The class invariant says
  three things: only catalogue questions are rated, every rating is a button
  value, and the result step is reached only when all ten questions are
  answered.

## Model

| member | source | states |
|---|---|---|
| `Catalogue.CatalogueShape` | src/App.jsx:20-35 | Each category has five questions, ten in all, and no question id occurs twice. |
| `Catalogue.IdCount` | src/App.jsx:20-35 | The catalogue has exactly ten distinct question ids. This is the total that completion is measured against. |
| `Catalogue.CategoriesPartition` | src/App.jsx:20-35 | The two categories share no question id. Together they hold every catalogue id. |
| `Catalogue.DistinctCard` | src/App.jsx:20-35 | A question list with distinct ids has as many ids as questions. |
| `Catalogue.RatingRange` | src/App.jsx:37-43 | A value is a rating button's value iff it lies between -2 and 2. |
| `Scoring.ScoresValid` | src/App.jsx:54-59 | Only catalogue ids hold ratings, and every rating is a button value, so every stored rating lies in [-2, 2]. |
| `Scoring.Lookup` | src/App.jsx:130-133 | The value a question counts is its rating, or 0 when unrated. On valid scores it is always on the rating scale, the 0 of an unanswered question included. |
| `Scoring.SumCategory` | src/App.jsx:130-133 | The left-fold sum of a category's ratings lies in [-2n, 2n] for n questions when all ratings are valid. |
| `Scoring.SumCategoryFrame` | src/App.jsx:130-133 | A category sum depends only on the ratings of that category's own questions. |
| `Scoring.SumCategoryConstant` | src/App.jsx:130-133 | If every question of a category counts the same rating c, the sum is c times the number of questions. |
| `Scoring.SumCategoryUpsert` | src/App.jsx:106-108 | Rating a question shifts its category's sum by (new rating - previous rating). Other categories' sums do not change. |
| `Scoring.IsComplete` | src/App.jsx:121-124 | The count test: the number of rated ids equals the size of the two categories together, which is 10. |
| `Scoring.CompleteIffAllAnswered` | src/App.jsx:121-124 | When only catalogue ids are rated, "ten ids rated" holds iff every catalogue question has a rating. |
| `Scoring.AnsweredAtMostTotal` | src/App.jsx:184 | The answered count shown as "n / 10" never exceeds 10. |
| `Scoring.Results` | src/App.jsx:126-136 | There is no result unless the step is the result screen. On it, x is the friction sum and y is the price-sensitivity sum. Both lie in the chart's domain [-10, 10]. |
| `Scoring.ApplyRatingsLastWins` | src/App.jsx:106-108 | A sequence of rating clicks leaves the starting scores overwritten by the last click on each question. Earlier clicks on the same question are lost. |
| `Scoring.ResultsDependOnLastClicks` | src/App.jsx:106-108 | Two click sequences with the same last click per question give the same plotted point, whatever their order or length. |
| `Scoring.RatingMovesOneAxis` | src/App.jsx:130-135 | Rating a price question moves only y, and rating a friction question moves only x. In both cases the move is (new rating - previous rating). |
| `Scoring.AllPlusOneScenario` | src/App.jsx:130-135 | With all ten questions rated +1, the point is (5, 5). |
| `Scoring.NoAnswersScenario` | src/App.jsx:130-135 | With no answers, the point is the origin. |
| `Quadrant.Classify` | src/App.jsx:242-254 | Each quadrant is chosen iff its sign condition holds, with zero on the high side. So every point gets exactly one quadrant. The quadrant is on the high-friction side iff x >= 0, and on the high-sensitivity side iff y >= 0. |
| `Quadrant.Title` | src/App.jsx:243-252 | The title starts with "High" iff the quadrant is on the high-friction side. Its sensitivity word is "High" iff the quadrant is on the high-sensitivity side. |
| `Quadrant.TitlesDistinct` | src/App.jsx:242-254 | The four quadrant titles are pairwise different. |
| `Quadrant.DescriptionsDistinct` | src/App.jsx:244-253 | The four quadrant descriptions are pairwise different. |
| `Quadrant.ClassifyBySigns` | src/App.jsx:242-254 | Points with the same sign pattern get the same quadrant. (0, 0) reads "High Friction / High Sensitivity". |
| `Names.TrimStart` | src/App.jsx:111 | The result is a suffix of the input. Everything removed is white space. The result is empty or starts with a non-white-space character. |
| `Names.TrimEnd` | src/App.jsx:111 | The result is a prefix of the input. Everything removed is white space. The result is empty or ends with a non-white-space character. |
| `Names.Trim` | src/App.jsx:111 | The trimmed name is the part of the name left after its leading and trailing white space. Everything outside it is white space. It is empty or starts and ends with a non-white-space character. |
| `Names.TrimNonEmptyIff` | src/App.jsx:110-112 | The trimmed name is non-empty iff the name contains a non-white-space character. |
| `App.Assessment.Valid` | src/App.jsx:54-59 | The class invariant: only catalogue ids hold button values, and the result step means complete. It implies at most ten ratings, and every question rated on the result step. |
| `App.Assessment.constructor` | src/App.jsx:101-103 | A new assessment is on the landing step with an empty name and no ratings. |
| `App.Assessment.SetIndustryName` | src/App.jsx:159-160 | Typing replaces the name and changes nothing else. |
| `App.Assessment.SetRating` | src/App.jsx:106-108 | Stores the value under the id, with the last write winning. Every other id's rating is unchanged and the invariant is kept. |
| `App.Assessment.Start` | src/App.jsx:110-112 | Moves to the assessment step iff the name contains a non-white-space character. Otherwise the step is unchanged. |
| `App.Assessment.Analyze` | src/App.jsx:217-219 | Moves to the result step iff all ten questions are answered. Otherwise the step is unchanged, since the button is disabled. |
| `App.Assessment.Reset` | src/App.jsx:114-118 | From any step: the scores are emptied, the name is cleared and the step returns to landing. |

## Left out

- Rendering is not modelled: the JSX markup, CSS classes, lucide icons and the recharts scatter chart (axes, grid, tooltip, the reference lines and their "Challenging"/"Opportunity" labels). It is presentation built on library calls.
- `CustomTooltip` is not modelled. It only displays values.
- `tailwind.config.js` is not modelled. It is static styling configuration.
- App.Assessment.SetRating: requires a catalogue id and a value from the rating scale. The handler itself does not check either. Its only caller is a rating button, which passes a catalogue question's id and a value from the rating options (src/App.jsx:54-59).
- App.Assessment.Analyze: models the click on the analyze button. A disabled button ignores the click, so an incomplete assessment leaves the step unchanged.
- Handlers are not restricted to the screen that shows their control. The source does not check the step inside any handler, so neither does the model.
- Question texts and quadrant descriptions are kept as strings. No property is proved about their wording beyond the title pattern and the texts being distinct.
- Every question has weight 1, and every question is required. The model has no weights, no optional questions and no error result for an unknown question id.
- JavaScript's `|| 0` is modelled as "0 when absent". Stored ratings are always numbers from the rating scale, so no other falsy value can occur.
