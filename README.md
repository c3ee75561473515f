# LabMind analysis and waitlist routes in Dafny

This project models the server side of the LabMind website in Dafny: the
`POST /api/ai/analyze` route and the `/api/waitlist` route.

- **The analyze route** validates a request and sends a preview of the data to
  the language model with six data-analysis tools. It runs every tool the
  model calls (`executeTool`) and sends their results back in a second call.
  It answers with the text of the final reply.
- **The tools** are:
  - `calculate_statistics`: descriptive statistics;
  - `detect_outliers`: the IQR rule;
  - `check_data_quality`: missing values, inferred types and duplicate rows;
  - `suggest_visualizations`: rule-based chart suggestions;
  - `correlation_analysis`: a pairwise Pearson matrix;
  - `generate_insights`: an echo.
- **The waitlist route** keeps an in-memory list of emails. `POST` appends an
  address that passes the email pattern unless it is already listed. `GET`
  returns the list and its length.

How the JavaScript runtime is modelled:

- **Values.** JavaScript values are the datatype `Json.Value`: null,
  undefined, a number, NaN, a string, a boolean, an array, or an object with
  ordered members.
- **Language operations.** Property access, `typeof`, truthiness, `||`,
  `String(v)`, `Number(v)`, `isNaN` and `JSON.stringify` are written out as
  functions over `Value`.
- **Exceptions.** A JavaScript exception is the `Throw` case of
  `JsRuntime.Result`. It carries the message the V8 engine would give.
  - Property access on null or undefined throws.
  - The route's `try`/`catch` blocks turn a `Throw` into the error bodies the
    route sends.
- **Host operations.** `Math.sqrt`, number-to-text conversion and
  string-to-number parsing are fields of the `JsRuntime.Host` parameter. The
  properties that need `Math.sqrt` assume `SqrtSound(host)`: the root of 0 is
  0, roots are non-negative, and `sqrt(x*x) == x` for `x >= 0`.
- **The model service** is a function parameter (`Analyze.Assistant`). So is
  the tool runner: the route's runner is `executeTool`.
- **Loops.** Where the source builds results in loops (`forEach`, `for`,
  `push`), the model has methods with loops. Each is proved equal to the
  function that specifies it, and the properties are proved about that
  function. The waitlist array is the class `Waitlist.WaitlistStore`.

## Model

| member | source | states |
|---|---|---|
| Json.TypeOfObject | LabMindWebsite/app/api/ai/analyze/route.ts:339 | `typeof v === 'object'` holds exactly for null, arrays and objects |
| Json.LookupFound | LabMindWebsite/app/api/ai/analyze/route.ts:248 | a property read finds a member with that key, and a missing key reads as undefined |
| Json.LookupAssign | LabMindWebsite/app/api/ai/analyze/route.ts:269 | after `obj[key] = val` the key reads back as val, and every other key is unchanged |
| Json.Assign | LabMindWebsite/app/api/ai/analyze/route.ts:364 | `obj[key] = val`: an existing key keeps its place and takes the new value; a new array-index key goes among the indices in ascending order; any other new key goes at the end; stated by Json.LookupAssign, Json.KeysOfAssign and Json.AssignKeepsOrder |
| Json.KeysOfAssign | LabMindWebsite/app/api/ai/analyze/route.ts:364 | assigning an existing key keeps `Object.keys` as it was; a new key adds exactly that key; a new key that is not an array index goes at the end |
| Json.KeysOfAssignMembers | LabMindWebsite/app/api/ai/analyze/route.ts:364 | after `obj[key] = val` the keys are the old keys and key, and no others |
| Json.AssignKeepsOrder | LabMindWebsite/app/api/ai/analyze/route.ts:364 | assignment keeps JavaScript's property order: array-index keys first in ascending order, then the other keys in insertion order |
| Json.AssignIndexFirst | LabMindWebsite/app/api/ai/analyze/route.ts:269 | `obj["0"] = v` on `{ b: 1 }` lists "0" before "b", as `Object.keys` and `JSON.stringify` do |
| Json.ParseIndexKey | LabMindWebsite/app/api/ai/analyze/route.ts:248 | the decimal key of an array index parses back to that index, so `arr["3"]` is `arr[3]` |
| Json.IndexKeys | LabMindWebsite/app/api/ai/analyze/route.ts:241 | `Object.keys` of an array of length n is "0" … "n-1" |
| Json.Prop | LabMindWebsite/app/api/ai/analyze/route.ts:248 | reading a property throws exactly on null or undefined; on an object it is the member's value |
| Json.IndexArr | LabMindWebsite/app/api/ai/analyze/route.ts:348 | `arr[i]` is the element, or undefined past the end |
| Json.ObjectKeys | LabMindWebsite/app/api/ai/analyze/route.ts:241 | `Object.keys` throws exactly on null or undefined |
| Json.EscapePlain | LabMindWebsite/app/api/ai/analyze/route.ts:283 | `JSON.stringify` leaves a string without quotes, backslashes or control characters unescaped |
| Json.Stringify | LabMindWebsite/app/api/ai/analyze/route.ts:468 | `JSON.stringify` gives no text exactly for undefined |
| Json.Truthy | LabMindWebsite/app/api/ai/analyze/route.ts:162 | truthiness as `\|\|` and `!` use it: false, 0, NaN, "", null and undefined are falsy, everything else truthy |
| Json.ToText | LabMindWebsite/app/api/ai/analyze/route.ts:364 | `String(v)`, the key a value stands for when it is used as a property name or in a template literal |
| Json.ToNumber | LabMindWebsite/app/api/ai/analyze/route.ts:268 | `Number(v)`: null and false give 0, true 1, strings and arrays go through the host's number parsing, objects and undefined give NaN |
| Json.LooseIsNaN | LabMindWebsite/app/api/ai/analyze/route.ts:268 | the global `isNaN(v)`: true exactly when `Number(v)` is NaN |
| Stats.NumericEntries | LabMindWebsite/app/api/ai/analyze/route.ts:206-207 | the `{value, index}` pairs kept are exactly the positions holding numbers (not NaN), in ascending order, each with its value |
| Stats.AllNumbersEntries | LabMindWebsite/app/api/ai/analyze/route.ts:206-207 | a list of numbers keeps every element at its own index |
| Stats.NumbersEmptyExactly | LabMindWebsite/app/api/ai/analyze/route.ts:167-170 | the filtered list is empty exactly when no element is a number |
| Stats.SquaredDeviations | LabMindWebsite/app/api/ai/analyze/route.ts:176 | the sum of squared deviations is never negative |
| Stats.MinOf | LabMindWebsite/app/api/ai/analyze/route.ts:178 | `Math.min(...xs)` is an element of xs and at most every element |
| Stats.MaxOf | LabMindWebsite/app/api/ai/analyze/route.ts:179 | `Math.max(...xs)` is an element of xs and at least every element |
| Stats.Percentage | LabMindWebsite/app/api/ai/analyze/route.ts:228 | `part / whole * 100` lies in 0..100 when part ≤ whole, and times whole gives part * 100 |
| Stats.Insert | LabMindWebsite/app/api/ai/analyze/route.ts:172 | inserting into a sorted list keeps it sorted and adds exactly that element |
| Stats.SortedCons | LabMindWebsite/app/api/ai/analyze/route.ts:172 | a head no larger than a sorted tail gives a sorted list |
| Stats.SortAsc | LabMindWebsite/app/api/ai/analyze/route.ts:172 | `sort((a, b) => a - b)` gives a sorted permutation of its input |
| Stats.CountsOfSort | LabMindWebsite/app/api/ai/analyze/route.ts:172 | sorting keeps how many elements lie below and at most any value |
| Stats.SortedRank | LabMindWebsite/app/api/ai/analyze/route.ts:175 | in a sorted list, element k is the k-th order statistic |
| Stats.OrderStatisticMonotone | LabMindWebsite/app/api/ai/analyze/route.ts:180-182 | a higher rank never has a smaller order statistic |
| Stats.SortedAtRank | LabMindWebsite/app/api/ai/analyze/route.ts:175 | element k of the sorted copy is the k-th order statistic of the original list |
| Stats.SortAscOfSorted | LabMindWebsite/app/api/ai/analyze/route.ts:172 | sorting a sorted list changes nothing |
| Stats.Mean | LabMindWebsite/app/api/ai/analyze/route.ts:173-174 | the mean times the count is the sum |
| Stats.Variance | LabMindWebsite/app/api/ai/analyze/route.ts:176 | the population variance times the count is the sum of squared deviations from the mean, and it is not negative |
| Stats.CoefficientOfVariation | LabMindWebsite/app/api/ai/analyze/route.ts:196 | 0 when the mean is 0; otherwise the value times the mean is the standard deviation |
| Stats.MedianRank | LabMindWebsite/app/api/ai/analyze/route.ts:175 | `floor(n / 2)` is a valid index |
| Stats.LowerQuartileRank | LabMindWebsite/app/api/ai/analyze/route.ts:180 | `floor(n * 0.25)` is not beyond the median's index |
| Stats.UpperQuartileRank | LabMindWebsite/app/api/ai/analyze/route.ts:181 | `floor(n * 0.75)` is a valid index no lower than the median's |
| Stats.QuartilesOrdered | LabMindWebsite/app/api/ai/analyze/route.ts:175-182 | q1, median and q3 are the order statistics of ranks n/4, n/2 and 3n/4, and q1 ≤ median ≤ q3 |
| Stats.DescribeSound | LabMindWebsite/app/api/ai/analyze/route.ts:172-197 | the statistics object: count, mean, variance ≥ 0, stdDev = sqrt(variance), median and quartiles at their sorted ranks, min ≤ q1 ≤ median ≤ q3 ≤ max, iqr and range ≥ 0, and the coefficient-of-variation cases |
| Stats.OneToTenExample | LabMindWebsite/app/api/ai/analyze/route.ts:172-197 | for 1..10: count 10, mean 5.5, median 6 (the upper middle element), q1 3, q3 8, iqr 5, variance 8.25, min 1, max 10, range 9 |
| Stats.RanksOfSorted | LabMindWebsite/app/api/ai/analyze/route.ts:175-182 | on sorted input, median, quartiles and extremes sit at the source's indices |
| Stats.ExtremesOfSorted | LabMindWebsite/app/api/ai/analyze/route.ts:178-179 | on sorted input, min is the first element and max the last |
| Stats.Describe | LabMindWebsite/app/api/ai/analyze/route.ts:172-197 | the statistics object of a non-empty list of numbers; its properties are stated by Stats.DescribeSound |
| Columns.KeepNumbers | LabMindWebsite/app/api/ai/analyze/route.ts:399 | `filter(v => typeof v === 'number' && !isNaN(v))` keeps exactly the numbers of the list |
| Columns.KeepNumbersAgrees | LabMindWebsite/app/api/ai/analyze/route.ts:167 | the filter in extractColumn and the tools' own filter keep the same numbers in the same order |
| Columns.KeepNumbersIdempotent | LabMindWebsite/app/api/ai/analyze/route.ts:399 | filtering twice is filtering once |
| Columns.KeepNumbersOfNumbers | LabMindWebsite/app/api/ai/analyze/route.ts:404 | a list of numbers passes the filter unchanged |
| Columns.Project | LabMindWebsite/app/api/ai/analyze/route.ts:399 | `rows.map(row => row[col])` succeeds exactly when no row is null or undefined, and gives each row's property |
| Columns.ExtractWithoutColumn | LabMindWebsite/app/api/ai/analyze/route.ts:394-396 | without a column name, an array comes back as it is and anything else as [] |
| Columns.ExtractColumnNumeric | LabMindWebsite/app/api/ai/analyze/route.ts:398-408 | with a column name, every extracted element is a number |
| Columns.ExtractFromRecords | LabMindWebsite/app/api/ai/analyze/route.ts:398-400 | from an array of records: exactly the numbers under that key, in row order |
| Columns.ExtractFromColumns | LabMindWebsite/app/api/ai/analyze/route.ts:402-405 | from an object whose column is an array: the numbers of that array |
| Columns.ExtractOtherwiseEmpty | LabMindWebsite/app/api/ai/analyze/route.ts:402-408 | any other non-null input with a column name gives [] |
| Columns.ExtractThrows | LabMindWebsite/app/api/ai/analyze/route.ts:393-409 | extractColumn throws exactly when the column name is truthy and the data is null, or is an array of records holding a null or undefined row |
| Columns.ExtractColumn | LabMindWebsite/app/api/ai/analyze/route.ts:393-409 | extractColumn: the element list or [] without a column name; with one, the numbers under it in an array of records or in the object's column array; its properties are stated by the Columns.Extract lemmas |
| Outliers.Threshold | LabMindWebsite/app/api/ai/analyze/route.ts:218 | `args.threshold \|\| 1.5`: a falsy argument gives 1.5, a non-zero number gives itself |
| Outliers.FencesAroundQuartiles | LabMindWebsite/app/api/ai/analyze/route.ts:222 | with a non-negative threshold, the lower fence is at most q1 and the upper fence at least q3 |
| Outliers.KeepOutside | LabMindWebsite/app/api/ai/analyze/route.ts:220-223 | every entry kept lies beyond a fence |
| Outliers.KeepOutsideAll | LabMindWebsite/app/api/ai/analyze/route.ts:220-223 | every entry beyond a fence is kept |
| Outliers.KeepOutsideAscending | LabMindWebsite/app/api/ai/analyze/route.ts:220-223 | filtering keeps the entries in index order |
| Outliers.DetectNoNumbers | LabMindWebsite/app/api/ai/analyze/route.ts:209-211 | the no-numbers answer is given exactly when no element is a number |
| Outliers.DetectSound | LabMindWebsite/app/api/ai/analyze/route.ts:213-230 | each outlier is a number of the input, at its index, outside the fences, in index order; count is the list's length; the percentage is in 0..100 |
| Outliers.DetectFilters | LabMindWebsite/app/api/ai/analyze/route.ts:213-226 | the outliers are the numeric entries filtered by the quartile fences |
| Outliers.DetectComplete | LabMindWebsite/app/api/ai/analyze/route.ts:220-226 | every number outside the fences is reported with its index |
| Outliers.NoOutlierBetweenQuartiles | LabMindWebsite/app/api/ai/analyze/route.ts:215-223 | with a non-negative threshold, no value between q1 and q3 is an outlier |
| Outliers.SpikeExample | LabMindWebsite/app/api/ai/analyze/route.ts:200-231 | for [1, 2, 3, 4, 5, 100] at threshold 1.5, exactly 100 at index 5 is an outlier (1 of 6) |
| Outliers.Detect | LabMindWebsite/app/api/ai/analyze/route.ts:206-230 | detect_outliers on an extracted list: the numeric entries beyond the quartile fences with their count and percentage, or the no-numbers answer; stated by Outliers.DetectSound and Outliers.DetectComplete |
| Pearson.Correlation | LabMindWebsite/app/api/ai/analyze/route.ts:411-412 | lists of different length, or empty lists, give 0 |
| Pearson.Ratio | LabMindWebsite/app/api/ai/analyze/route.ts:424 | a zero denominator gives 0; otherwise the result times the denominator is the numerator |
| Pearson.CorrelationSymmetric | LabMindWebsite/app/api/ai/analyze/route.ts:411-425 | the coefficient of (x, y) equals that of (y, x) |
| Pearson.CorrelationConstant | LabMindWebsite/app/api/ai/analyze/route.ts:421-424 | a constant list has no spread, so its coefficient with anything is 0 |
| Pearson.ScaledSums | LabMindWebsite/app/api/ai/analyze/route.ts:415-419 | for y = c·x: sum y = c·sum x, sum xy = c·sum x², sum y² = c²·sum x² |
| Pearson.PositiveScaleCorrelation | LabMindWebsite/app/api/ai/analyze/route.ts:411-425 | a positive multiple of a non-constant list correlates with it at exactly 1 |
| Pearson.SelfCorrelation | LabMindWebsite/app/api/ai/analyze/route.ts:411-425 | a non-constant list correlates with itself at exactly 1 |
| Quality.ZipRowsThrow | LabMindWebsite/app/api/ai/analyze/route.ts:245-251 | once building a row throws, building more rows throws the same error |
| Quality.BuildRow | LabMindWebsite/app/api/ai/analyze/route.ts:246-250 | the `keys.forEach` loop builds the row the zip specification gives, or throws as it does |
| Quality.BuildZippedRows | LabMindWebsite/app/api/ai/analyze/route.ts:245-251 | `Array.from({ length }, …)` builds the rows the zip specification gives |
| Quality.BuildRows | LabMindWebsite/app/api/ai/analyze/route.ts:235-255 | the row conversion equals its specification RowsOf |
| Quality.ZipRowCells | LabMindWebsite/app/api/ai/analyze/route.ts:247-249 | every key of a built row holds `data[key][i]` |
| Quality.ZipRowsAt | LabMindWebsite/app/api/ai/analyze/route.ts:245-251 | there are firstColLength rows, and row i is the object zipped at i |
| Quality.RowsOfShape | LabMindWebsite/app/api/ai/analyze/route.ts:234-255 | arrays are their rows; null throws; other non-objects give no rows; an object without an array first column is one row; otherwise the zipped rows |
| Quality.ZipRowsCells | LabMindWebsite/app/api/ai/analyze/route.ts:244-251 | zipped rows: n objects, whose every key holds that column's i-th cell |
| Quality.KeyValues | LabMindWebsite/app/api/ai/analyze/route.ts:257 | the default column list is the first row's keys, as strings |
| Quality.MissingCount | LabMindWebsite/app/api/ai/analyze/route.ts:268 | the missing count is at most the number of values |
| Quality.KindsSound | LabMindWebsite/app/api/ai/analyze/route.ts:275-278 | the inferred types are distinct and are exactly the typeof of the present values |
| Quality.KindsValue | LabMindWebsite/app/api/ai/analyze/route.ts:278 | `Array.from(types)` lists the types in order |
| Quality.TallyLoop | LabMindWebsite/app/api/ai/analyze/route.ts:266-280 | the `columns.forEach` loop equals the tally specification, including where it throws |
| Quality.TallySound | LabMindWebsite/app/api/ai/analyze/route.ts:266-280 | each column's missingValues entry is its count and percentage; its dataTypes entry is set only when it has present values, to their types |
| Quality.TallyKeyUnset | LabMindWebsite/app/api/ai/analyze/route.ts:276-279 | a column without present values gets no dataTypes entry |
| Quality.TallyKeys | LabMindWebsite/app/api/ai/analyze/route.ts:266-272 | missingValues has a key exactly for each visited column name |
| Quality.Distinct | LabMindWebsite/app/api/ai/analyze/route.ts:284 | `new Set(rowStrings)` holds exactly the texts of the rows, no more of them than rows, and some if there are rows |
| Quality.RowTexts | LabMindWebsite/app/api/ai/analyze/route.ts:283 | each row's text is its `JSON.stringify` |
| Quality.DuplicatesBounds | LabMindWebsite/app/api/ai/analyze/route.ts:282-285 | no rows, no duplicates; otherwise fewer duplicates than rows; rows with pairwise different texts have none |
| Quality.CheckDataQuality | LabMindWebsite/app/api/ai/analyze/route.ts:233-288 | check_data_quality as it runs equals its specification QualityOf |
| Quality.QualitySound | LabMindWebsite/app/api/ai/analyze/route.ts:257-285 | totalRows and totalColumns are the counts; duplicates are below totalRows; each column's missing record has a count ≤ totalRows and a percentage in 0..100 |
| Quality.DefaultColumns | LabMindWebsite/app/api/ai/analyze/route.ts:257 | without a columns argument: none for no rows, else the first row's keys |
| Quality.RowsOf | LabMindWebsite/app/api/ai/analyze/route.ts:234-255 | the rows of the dataset: an array as it is, an object with an array first column zipped to its length, another object as one row; stated by Quality.RowsOfShape |
| Quality.TallyColumns | LabMindWebsite/app/api/ai/analyze/route.ts:266-280 | the missingValues and dataTypes objects after the forEach has visited the given columns; stated by Quality.TallySound and Quality.TallyKeys |
| Quality.Duplicates | LabMindWebsite/app/api/ai/analyze/route.ts:282-285 | `rowStrings.length - uniqueRows.size`; stated by Quality.DuplicatesBounds |
| Quality.QualityOf | LabMindWebsite/app/api/ai/analyze/route.ts:233-288 | check_data_quality on the arguments and the request data; stated by Quality.QualitySound |
| Quality.ReportColumns | LabMindWebsite/app/api/ai/analyze/route.ts:257 | `args.columns \|\| (rows.length > 0 ? Object.keys(rows[0]) : [])` as forEach iterates it: a truthy non-array throws `columns.forEach is not a function`; stated by Quality.DefaultColumns |
| Quality.Kinds | LabMindWebsite/app/api/ai/analyze/route.ts:275-278 | `Array.from(new Set(nonMissing.map(v => typeof v)))`: the types of the present values in order of first appearance; stated by Quality.KindsSound |
| Visualize.CountOfType | LabMindWebsite/app/api/ai/analyze/route.ts:298-300 | the count of variables of a type is at most their number; it throws exactly when a variable is null or undefined |
| Visualize.ContainsAt | LabMindWebsite/app/api/ai/analyze/route.ts:302 | `goal.includes(w)` holds when w occurs at some position |
| Visualize.ContainsOccurs | LabMindWebsite/app/api/ai/analyze/route.ts:302 | `goal.includes(w)` holds only when w occurs: it yields a position where w occurs in the goal |
| Visualize.ContainsExactly | LabMindWebsite/app/api/ai/analyze/route.ts:302 | `goal.includes(w)` on a string holds exactly when w occurs at some position |
| Visualize.Contains | LabMindWebsite/app/api/ai/analyze/route.ts:302-318 | `String.prototype.includes`: a contiguous, case-sensitive substring test; stated by Visualize.ContainsExactly and Visualize.FirstCharAbsent |
| Visualize.FirstCharAbsent | LabMindWebsite/app/api/ai/analyze/route.ts:302 | a word whose first letter is not in the goal is not included |
| Visualize.PushSuggestions | LabMindWebsite/app/api/ai/analyze/route.ts:295-326 | the pushes build exactly the suggestion list of the rules |
| Visualize.SuggestVisualizations | LabMindWebsite/app/api/ai/analyze/route.ts:290-333 | suggest_visualizations as it runs equals its specification |
| Visualize.SuggestionsShape | LabMindWebsite/app/api/ai/analyze/route.ts:302-326 | never empty; the fallback pair exactly when no rule fires; the first suggestion is that of the first rule that fires |
| Visualize.SuggestionSources | LabMindWebsite/app/api/ai/analyze/route.ts:302-326 | a suggestion is listed exactly when its rule fired, or no rule fired and it is a fallback |
| Visualize.DistributionChartsByRule | LabMindWebsite/app/api/ai/analyze/route.ts:302-306 | histogram and violin plot are suggested exactly when the distribution rule fires |
| Visualize.ComparisonChartByRule | LabMindWebsite/app/api/ai/analyze/route.ts:308-311 | the comparison bar chart is suggested exactly when the comparison rule fires |
| Visualize.CorrelationChartByRule | LabMindWebsite/app/api/ai/analyze/route.ts:313-316 | the heatmap is suggested exactly when the correlation rule fires |
| Visualize.TrendChartsByRule | LabMindWebsite/app/api/ai/analyze/route.ts:318-321 | line and area charts are suggested exactly when the trend rule fires |
| Visualize.BoxPlotCount | LabMindWebsite/app/api/ai/analyze/route.ts:304-310 | box_plot appears once per rule among distribution and comparison that fires |
| Visualize.ReportSound | LabMindWebsite/app/api/ai/analyze/route.ts:328-332 | variablesAnalyzed is the number of variables, and recommended is the first suggestion's type |
| Visualize.GeneralGoalFallback | LabMindWebsite/app/api/ai/analyze/route.ts:293 | the default goal 'general' fires no rule and gives the fallback pair |
| Visualize.Includes | LabMindWebsite/app/api/ai/analyze/route.ts:302-318 | `goal.includes(word)`: a substring test on a string, an element test on an array; stated by Visualize.ContainsExactly and Visualize.FirstCharAbsent |
| Visualize.VisualizationsOf | LabMindWebsite/app/api/ai/analyze/route.ts:290-333 | suggest_visualizations on the tool arguments; stated by Visualize.SuggestionsShape and Visualize.SuggestionSources |
| Visualize.SignalsOf | LabMindWebsite/app/api/ai/analyze/route.ts:291-318 | the `\|\|` defaults for data, variables and goal, the three `variables.filter` counts and the four `goal.includes` tests, throwing in the order the source reads them; stated by Visualize.CountOfType and Visualize.GeneralGoalFallback |
| Visualize.Suggestions | LabMindWebsite/app/api/ai/analyze/route.ts:302-326 | the rule table in order, with the fallback pair when no rule fires; stated by Visualize.SuggestionsShape, Visualize.SuggestionSources and the ByRule lemmas |
| Correlate.VariableList | LabMindWebsite/app/api/ai/analyze/route.ts:355-358 | the variables the loops read through `variables.length` and `variables[i]`: an array's elements; a string's characters; for an object, its "0", "1", … members up to the count its `length` member converts to; none for numbers and booleans |
| Correlate.LoopCount | LabMindWebsite/app/api/ai/analyze/route.ts:355-356 | how many times `i < variables.length` holds: 0 for NaN or a length ≤ 0, otherwise the least whole number not below the length |
| Correlate.ArrayLikeVariables | LabMindWebsite/app/api/ai/analyze/route.ts:355-358 | an object `{ length: 1, "0": "a" }` is iterated as the single variable "a" |
| Correlate.Names | LabMindWebsite/app/api/ai/analyze/route.ts:357-358 | each variable is used under its text |
| Correlate.ColumnsOf | LabMindWebsite/app/api/ai/analyze/route.ts:359-360 | each variable's column is the numbers under it across the rows |
| Correlate.CoefsAt | LabMindWebsite/app/api/ai/analyze/route.ts:363 | the coefficient table holds the Pearson coefficient of each pair of columns |
| Correlate.GridOf | LabMindWebsite/app/api/ai/analyze/route.ts:355-367 | the grid has one column per variable and describes the rows |
| Correlate.CorrelationLoops | LabMindWebsite/app/api/ai/analyze/route.ts:354-367 | the nested loops build exactly the correlations object of the specification |
| Correlate.CorrelationKeys | LabMindWebsite/app/api/ai/analyze/route.ts:355-367 | a key is present exactly when some pair i ≤ j qualifies (equal lengths, more than 1) under that `var1_var2` key |
| Correlate.CorrelationValue | LabMindWebsite/app/api/ai/analyze/route.ts:362-364 | the last pair written under a key leaves the Pearson coefficient of its two columns there |
| Correlate.CorrelationRowsRecords | LabMindWebsite/app/api/ai/analyze/route.ts:341-352 | the converted rows are all records |
| Correlate.NonObjectData | LabMindWebsite/app/api/ai/analyze/route.ts:339-376 | data that is not an object throws exactly when it is null |
| Correlate.BuildCorrelationRows | LabMindWebsite/app/api/ai/analyze/route.ts:341-352 | the row loop equals the row specification |
| Correlate.CorrelationAnalysis | LabMindWebsite/app/api/ai/analyze/route.ts:335-377 | correlation_analysis as it runs equals its specification |
| Correlate.InvalidFormatExactly | LabMindWebsite/app/api/ai/analyze/route.ts:339-376 | the invalid-format error comes exactly for arrays and for data whose typeof is not 'object' |
| Correlate.CorrelationRows | LabMindWebsite/app/api/ai/analyze/route.ts:341-352 | the rows built from an object: zipped when its first key holds an array, none otherwise; stated by Correlate.CorrelationRowsRecords and Correlate.BuildCorrelationRows |
| Correlate.Correlations | LabMindWebsite/app/api/ai/analyze/route.ts:354-367 | the correlations object after both loops; stated by Correlate.CorrelationKeys and Correlate.CorrelationValue |
| Correlate.PairStep | LabMindWebsite/app/api/ai/analyze/route.ts:357-365 | one pass of the inner loop: both columns filtered, and the coefficient written under `var1_var2` exactly when the guard holds |
| Correlate.CorrelateRows | LabMindWebsite/app/api/ai/analyze/route.ts:354-367 | the two loops over the rows and the variables give the correlations object of the specification |
| Correlate.CorrelateObject | LabMindWebsite/app/api/ai/analyze/route.ts:339-374 | on an object: the rows are built, then the loops run, and the answer carries the method, the correlations and the variables |
| Correlate.CorrelateData | LabMindWebsite/app/api/ai/analyze/route.ts:339-376 | the format check: an object goes to the loops; other data gets the invalid-format answer or throws for null |
| Correlate.CorrelationOf | LabMindWebsite/app/api/ai/analyze/route.ts:335-377 | correlation_analysis on the arguments and the request data; stated by Correlate.CorrelationKeys, Correlate.CorrelationValue and Correlate.InvalidFormatExactly |
| Correlate.DataCorrelation | LabMindWebsite/app/api/ai/analyze/route.ts:339-376 | the format check once the arguments are read: an object reaches the loops, other data is the invalid format or throws for null; stated by Correlate.InvalidFormatExactly and Correlate.NonObjectData |
| Correlate.ObjectCorrelation | LabMindWebsite/app/api/ai/analyze/route.ts:339-374 | on an object: the rows, the loops and the method, correlations and variables answer; stated by Correlate.CorrelationKeys and Correlate.CorrelationValue |
| Tools.ToolNames | LabMindWebsite/app/api/ai/analyze/route.ts:19-156 | the names of dataAnalysisTools, in order |
| Tools.StatisticsOf | LabMindWebsite/app/api/ai/analyze/route.ts:161-198 | calculate_statistics gives statistics or one of its two errors |
| Tools.OutliersOf | LabMindWebsite/app/api/ai/analyze/route.ts:200-231 | detect_outliers gives a report or its one error |
| Tools.CorrelationToolOf | LabMindWebsite/app/api/ai/analyze/route.ts:335-377 | correlation_analysis gives correlations or its one error |
| Tools.QualityToolOf | LabMindWebsite/app/api/ai/analyze/route.ts:233-288 | check_data_quality never returns an error object |
| Tools.VisualToolOf | LabMindWebsite/app/api/ai/analyze/route.ts:290-333 | suggest_visualizations never returns an error object |
| Tools.InsightsOf | LabMindWebsite/app/api/ai/analyze/route.ts:379-385 | generate_insights succeeds exactly when args can be read, and hands back args.analysisResults |
| Tools.ExecuteTool | LabMindWebsite/app/api/ai/analyze/route.ts:159-390 | executeTool as it runs equals its specification ToolOf |
| Tools.Render | LabMindWebsite/app/api/ai/analyze/route.ts:164 | each tool returns an object; an error is `{ error }` alone |
| Tools.ToolNamesListed | LabMindWebsite/app/api/ai/analyze/route.ts:19-156 | the six tool names, in order |
| Tools.CaseOfListed | LabMindWebsite/app/api/ai/analyze/route.ts:160-388 | the switch reaches its default exactly for names outside dataAnalysisTools |
| Tools.UnlistedToolUnknown | LabMindWebsite/app/api/ai/analyze/route.ts:387-388 | an unlisted name gets `Unknown tool: <name>` |
| Tools.ListedToolKnown | LabMindWebsite/app/api/ai/analyze/route.ts:160-386 | a listed name never gets the unknown-tool error |
| Tools.UnknownToolExactly | LabMindWebsite/app/api/ai/analyze/route.ts:159-390 | the unknown-tool error is given exactly for names outside dataAnalysisTools |
| Tools.ToolNamesDistinct | LabMindWebsite/app/api/ai/analyze/route.ts:19-156 | the six tool names are pairwise different |
| Tools.SummarizeList | LabMindWebsite/app/api/ai/analyze/route.ts:163-197 | empty list: invalid-data error; no numbers: no-numbers error; otherwise the summary of exactly its numbers |
| Tools.StatisticsOfList | LabMindWebsite/app/api/ai/analyze/route.ts:162 | a data list given without a column is summarised as it is |
| Tools.NumericToolsInvalidExactly | LabMindWebsite/app/api/ai/analyze/route.ts:162-165 | detect_outliers reports invalid data exactly when neither data nor column is given; calculate_statistics then does too |
| Tools.OutlierMethodEchoed | LabMindWebsite/app/api/ai/analyze/route.ts:229 | the method argument affects only the echoed method ('iqr' by default), never the report |
| Tools.InsightsEcho | LabMindWebsite/app/api/ai/analyze/route.ts:381-384 | the insights object carries the fixed message and the given analysisResults |
| Tools.NumbersArg | LabMindWebsite/app/api/ai/analyze/route.ts:162 | the list both numeric tools start from: extractColumn of the data (or the request data) when data or column is given, else args.data |
| Tools.Summarize | LabMindWebsite/app/api/ai/analyze/route.ts:163-197 | calculate_statistics once the list is extracted; stated by Tools.SummarizeList |
| Tools.QualityTool | LabMindWebsite/app/api/ai/analyze/route.ts:233-288 | the check_data_quality case returns the quality report, or passes on what it throws |
| Tools.VisualTool | LabMindWebsite/app/api/ai/analyze/route.ts:290-333 | the suggest_visualizations case returns the suggestion report, or passes on what it throws |
| Tools.CorrelationTool | LabMindWebsite/app/api/ai/analyze/route.ts:335-377 | the correlation_analysis case returns the correlations or the invalid-format error, or passes on what it throws |
| Tools.ToolOf | LabMindWebsite/app/api/ai/analyze/route.ts:159-390 | executeTool: the case the name selects; stated by Tools.UnknownToolExactly and the per-tool lemmas |
| Analyze.Validate | LabMindWebsite/app/api/ai/analyze/route.ts:11-16 | an accepted body is an object with one of the five analysis types, and its data is the body's data |
| Analyze.Preview | LabMindWebsite/app/api/ai/analyze/route.ts:468 | building the preview throws exactly for undefined data |
| Analyze.PreviewPrefix | LabMindWebsite/app/api/ai/analyze/route.ts:468 | the preview is a prefix of the serialised data, at most 5000 characters long |
| Analyze.PromptChoice | LabMindWebsite/app/api/ai/analyze/route.ts:467-469 | a non-empty userQuery leads the message; otherwise the default request for the analysis type |
| Analyze.ToolUses | LabMindWebsite/app/api/ai/analyze/route.ts:489-492 | the tool_use blocks of a reply: every one is listed and nothing else is; none exactly when `some` finds none |
| Analyze.RunTools | LabMindWebsite/app/api/ai/analyze/route.ts:491-506 | the loop over the reply's blocks equals its specification |
| Analyze.ToolResultsPerUse | LabMindWebsite/app/api/ai/analyze/route.ts:491-506 | one tool result per tool_use block, in order, with the block's id |
| Analyze.ThrownToolContent | LabMindWebsite/app/api/ai/analyze/route.ts:499-503 | a tool that throws leaves `{ error: message }` as its content |
| Analyze.ToolResultsNonEmpty | LabMindWebsite/app/api/ai/analyze/route.ts:489-506 | a reply with a tool_use block gives at least one result |
| Analyze.Post | LabMindWebsite/app/api/ai/analyze/route.ts:427-549 | POST as it runs equals its specification PostOf |
| Analyze.Conversation | LabMindWebsite/app/api/ai/analyze/route.ts:472-540 | the two model calls and the tool loop equal their specification |
| Analyze.SecondCallExactly | LabMindWebsite/app/api/ai/analyze/route.ts:489-529 | the second model call is made exactly when the request gets that far and the first reply has a tool_use block |
| Analyze.SuccessListsResults | LabMindWebsite/app/api/ai/analyze/route.ts:538 | toolResults is undefined exactly when there are none; otherwise it lists them |
| Analyze.ConverseListsResults | LabMindWebsite/app/api/ai/analyze/route.ts:486-540 | a successful answer lists tool results exactly when the second call was made |
| Analyze.ToolResultsOmittedExactly | LabMindWebsite/app/api/ai/analyze/route.ts:427-540 | the same, for the whole route |
| Analyze.ConverseStatus | LabMindWebsite/app/api/ai/analyze/route.ts:472-548 | after the prompt is built, the answer is 200 with success true or 500 with an error text |
| Analyze.StatusCodes | LabMindWebsite/app/api/ai/analyze/route.ts:427-549 | 400 exactly for a body that fails validation; 200 only after a model call, with success true; every other answer has an error text |
| Analyze.UserMessage | LabMindWebsite/app/api/ai/analyze/route.ts:467-469 | the user message: the query when it is a non-empty string, else the default request, then the data preview; stated by Analyze.PromptChoice |
| Analyze.ToolResultsOf | LabMindWebsite/app/api/ai/analyze/route.ts:491-506 | the tool results of a reply's blocks, in block order; stated by Analyze.ToolResultsPerUse |
| Analyze.Success | LabMindWebsite/app/api/ai/analyze/route.ts:531-540 | the success body: the text blocks joined, and toolResults undefined when there are none; stated by Analyze.SuccessListsResults |
| Analyze.Converse | LabMindWebsite/app/api/ai/analyze/route.ts:472-548 | the two model calls and the tool loop once the message is built; stated by Analyze.ConverseStatus and Analyze.ConverseListsResults |
| Analyze.PostOf | LabMindWebsite/app/api/ai/analyze/route.ts:427-549 | POST on the parsed body, the API key and the model service; stated by Analyze.StatusCodes |
| Analyze.ToolContent | LabMindWebsite/app/api/ai/analyze/route.ts:496-503 | `JSON.stringify(toolResult)`, or `JSON.stringify({ error: error.message })` when the tool threw; stated by Analyze.ThrownToolContent |
| Analyze.Texts | LabMindWebsite/app/api/ai/analyze/route.ts:532-533 | the texts of the final reply's text blocks, in block order, which the answer joins with blank lines |
| Waitlist.FirstAt | LabMindWebsite/app/api/waitlist/route.ts:19 | the first '@' of the address, or none |
| Waitlist.ValidEmailMatchesPattern | LabMindWebsite/app/api/waitlist/route.ts:19-20 | the check accepts exactly the strings the pattern `^[^\s@]+@[^\s@]+\.[^\s@]+$` matches |
| Waitlist.ValidEmailSingleAt | LabMindWebsite/app/api/waitlist/route.ts:19 | an accepted address holds exactly one '@' |
| Waitlist.Screen | LabMindWebsite/app/api/waitlist/route.ts:9-25 | only a non-empty string that passes the pattern is accepted |
| Waitlist.Listing | LabMindWebsite/app/api/waitlist/route.ts:74-78 | GET answers 200 with an object |
| Waitlist.WaitlistStore.constructor | LabMindWebsite/app/api/waitlist/route.ts:5 | the list starts empty |
| Waitlist.WaitlistStore.Post | LabMindWebsite/app/api/waitlist/route.ts:7-57 | the new list and the answer are those of Signup, and the list stays free of duplicates |
| Waitlist.WaitlistStore.Get | LabMindWebsite/app/api/waitlist/route.ts:61-85 | GET lists the stored emails |
| Waitlist.SignupKeepsDistinct | LabMindWebsite/app/api/waitlist/route.ts:42-44 | a signup never adds a duplicate |
| Waitlist.SignupAppends | LabMindWebsite/app/api/waitlist/route.ts:42-44 | the old list is a prefix of the new one, which is at most one longer |
| Waitlist.RejectedUnchanged | LabMindWebsite/app/api/waitlist/route.ts:11-25 | a rejected signup leaves the list unchanged |
| Waitlist.EmailRequired | LabMindWebsite/app/api/waitlist/route.ts:11-16 | a missing, empty or non-string email gets 400 'Email is required' |
| Waitlist.InvalidEmailRejected | LabMindWebsite/app/api/waitlist/route.ts:20-25 | a string the pattern rejects gets 400 'Invalid email address' |
| Waitlist.SignupIdempotent | LabMindWebsite/app/api/waitlist/route.ts:42-49 | submitting the same body again changes nothing and gets the same answer |
| Waitlist.AcceptedStored | LabMindWebsite/app/api/waitlist/route.ts:42-49 | a valid address is listed afterwards and gets the success answer |
| Waitlist.ListingSound | LabMindWebsite/app/api/waitlist/route.ts:74-78 | GET lists the emails in signup order, with their number as count |
| Waitlist.ValidEmail | LabMindWebsite/app/api/waitlist/route.ts:19-20 | `emailRegex.test(email)`; stated by Waitlist.ValidEmailMatchesPattern |
| Waitlist.MatchesEmailPattern | LabMindWebsite/app/api/waitlist/route.ts:19 | the language of `/^[^\s@]+@[^\s@]+\.[^\s@]+$/`; stated by Waitlist.ValidEmailMatchesPattern |
| Waitlist.Signup | LabMindWebsite/app/api/waitlist/route.ts:9-49 | the list after a signup and the answer to it; stated by Waitlist.SignupKeepsDistinct, Waitlist.SignupAppends and Waitlist.SignupIdempotent |

## Left out

- **The Anthropic SDK call** (`anthropic.messages.create`) is the function
  parameter `Analyze.Assistant`. The model receives what the route sends
  (model id, max_tokens, messages, tools), but the system prompt text is not
  part of this model.
- **The tool descriptions and input schemas** of `dataAnalysisTools` are left
  out. The model keeps only the names and required inputs, because the route
  uses nothing else.
- **zod.** The internals of `safeParse` are written out as `Analyze.Validate`.
  The `details` field of the 400 answer (zod's error list) is left out.
- **`request.json()`** is a parameter: the parsed body, or the message the
  parse throws.
- **The environment.** `process.env.ANTHROPIC_API_KEY` is a parameter.
- **`console.log`, `console.error` and `new Date()`** are left out because
  they have no effect on any answer.
- **The commented-out Postgres code** in the waitlist route is left out; it is
  not executed.
- **The `catch` branch of the waitlist `GET`** is left out; nothing in the
  `try` block can throw.
- **Numbers.** A number is an exact real (`Num(real)`), or NaN.
  - IEEE-754 rounding and overflow are not modelled.
  - Infinity and -0 are not representable.
  - So `Stats.Mean` and `Pearson.Correlation` state exact arithmetic, where
    the route computes in doubles.
- **Host operations.** `Math.sqrt`, number-to-text conversion and the parsing
  of numeric strings are fields of `JsRuntime.Host`. The Pearson and
  `stdDev` properties hold under the `SqrtSound` assumption about that
  parameter.
- **Prototype members.** Property access does not model inherited members
  such as `toString` or `constructor`; it models own members, and array and
  string indices and `length`.
- **Strings.** `substring`, a string's `length` and string indexing count
  characters (code points), not UTF-16 code units. So a string holding a
  character outside the Basic Multilingual Plane is shorter in the model.
- **Property order of input objects.** `Json.Assign` places a new key where
  JavaScript does: an array-index key among the indices in ascending order,
  any other key at the end. Objects in the request are taken as given. They
  are assumed to be in JavaScript's property order already, as `JSON.parse`
  produces them.
- **Concurrency.** `await` and interleaving between requests are not modelled.
  Each request runs to completion on the module-level waitlist array.
- **The user-interface files** of the website are not part of this model.
- **The median** is `sorted[Math.floor(n / 2)]`: for even n that is the upper
  middle element, not the mean of the two middle elements. The model follows
  the code.
