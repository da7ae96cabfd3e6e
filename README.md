# Regenerative-agriculture platform: a verified model of its data core

This project is a Dafny model of the data-handling core of a farm-management web application. The application has a hosted Postgres database and several serverless "edge functions".

It models these parts:

- **The environmental-data batch** (`fetch-environmental-data`). For every profile with a location, the batch:
  - turns the location into coordinates: "lat,lng" text is read directly, anything else is geocoded;
  - fetches six months of Open-Meteo and NASA POWER history;
  - sums the daily rainfall per month into `rainfall_data`;
  - turns monthly solar-radiation and rainfall averages into a clamped vegetation index in `vegetation_data`;
  - writes two rows to `metrics`: a soil-moisture trend from two 30-day windows, and an erosion-risk level from heavy-rain days.

  A failure for one profile is caught, and the batch goes on.
- **`fetch-kenya-data`**: finds the user's county, stores its daily weather per county, date and source, and reports the county's current rainfall season and season windows.
- **`fetch-weather-forecast`**: turns the user's location into coordinates by a comma rule, labels each forecast day Rainy, Partly Cloudy or Sunny, and upserts the days per user and date.
- **`calculate-carbon`**: turns the NDVI change over the user's vegetation rows into tons of carbon and a credit value, and inserts a credit row.
- **Four pages**:
  - the financial ledger, with its totals, list and add form;
  - the carbon tracker, with its totals, verified count, calculate button and history chart;
  - the weather page, with its refresh button and irrigation advice;
  - the settings page, with its profile and password validators and submit handlers.

## How the model is built

JavaScript numbers are `JsNumber.Quantity`: either an exact `real` or `NotFinite`, which stands for NaN or ±Infinity. A non-finite number is serialised as JSON `null`. Where it reaches a NOT NULL column, the database refuses the write, and the model says so.

The JavaScript built-ins the code relies on are written out with their JavaScript semantics:

- `parseFloat`, which reads the longest numeric prefix;
- `Number`, which reads the whole string;
- `trim`, `substring`, `split` and `slice`.

Outside services are parameters:

- the geocoder, Open-Meteo and NASA POWER are functions from their query to their answer;
- the database is a table plus the set of keys, or a flag, for the writes it refuses; a bulk upsert whose entries repeat a conflict key is rejected as a whole, as PostgreSQL's `INSERT … ON CONFLICT DO UPDATE` does;
- the client library's error messages are parameters.

The batch, the stores and the page handlers change state step by step in the source, so they are Dafny classes and methods:

- `Tables.Table` is a keyed table whose `Upsert` overwrites;
- the loops over months and profiles carry invariants tying the tables to a specification function of their inputs.

The three request-handling functions are straight-line in the source. They are pure functions returning the reply together with the table after the call.

## Model

| member | source | states |
|---|---|---|
| JsText.Trim | src/pages/Settings.tsx:15-19 | the trimmed text is what lies between some leading and some trailing white space of the text; it has no white space at either end, and it is empty exactly when the text is all white space |
| JsText.Substring | supabase/functions/fetch-environmental-data/index.ts:186 | within bounds `substring` is the plain slice; an end past the length is clamped to it, a negative start to 0, and a start past the end swaps the two |
| JsText.Split | supabase/functions/fetch-weather-forecast/index.ts:51 | `split` gives at least one piece, exactly one when the separator is absent, and no piece holds the separator |
| JsText.JoinSplit | supabase/functions/fetch-weather-forecast/index.ts:51 | joining the pieces of a split with the separator gives back the text |
| JsText.SplitJoin | supabase/functions/fetch-weather-forecast/index.ts:51 | splitting a join of separator-free pieces gives back the pieces |
| JsText.RelativeIndex | supabase/functions/fetch-environmental-data/index.ts:262-269 | a negative `slice` index counts back from the end and one below minus the length resolves to 0; an index in range is kept, and one past the length resolves to the length |
| JsNumber.ParseFloatDecimalText | supabase/functions/fetch-environmental-data/index.ts:119 | `parseFloat` reads a plain decimal (optional minus, digits, optional fraction) as exactly its value |
| JsNumber.ParseFloatNoNumber | src/pages/CarbonTracker.tsx:46 | `parseFloat` of text that starts with no sign, digit, dot or `Infinity`, after leading white space, is NaN |
| JsNumber.NumberAcceptsDecimalText | src/pages/Settings.tsx:20-22 | `Number` accepts every plain decimal |
| Buckets.Group | supabase/functions/fetch-environmental-data/index.ts:183-191 | the one-pass grouping lists each key once, in order of first occurrence, and gives each key exactly the entries with that key, in order |
| Buckets.KeysMembership | supabase/functions/fetch-environmental-data/index.ts:185-189 | a month is listed exactly when some entry falls in it |
| Buckets.KeysDistinct | supabase/functions/fetch-environmental-data/index.ts:187-189 | no month is listed twice |
| Buckets.BucketMembership | supabase/functions/fetch-environmental-data/index.ts:185-191 | every entry lands in the bucket of its own key and in no other |
| Buckets.BucketsConserveSum | supabase/functions/fetch-environmental-data/index.ts:194-195 | the buckets' sums add up to the sum of all entries: nothing is lost or counted twice |
| Buckets.SumOfPermutation | supabase/functions/fetch-environmental-data/index.ts:195 | a `reduce` sum does not depend on the order of the entries |
| Buckets.BucketPermutation | supabase/functions/fetch-environmental-data/index.ts:185-191 | the same entries in another order fill each bucket with the same multiset |
| Buckets.TotalIsSum | supabase/functions/fetch-environmental-data/index.ts:195 | a `reduce` over values that may be `undefined` is the plain sum when all are present, and NaN otherwise |
| Buckets.TotalPermutation | supabase/functions/fetch-environmental-data/index.ts:195 | such a `reduce` does not depend on the order of the entries |
| Buckets.BucketLength | src/pages/CarbonTracker.tsx:106-107 | a filter keeps at most every entry, and keeps all of them exactly when all pass |
| Tables.Table.Upsert | supabase/functions/fetch-environmental-data/index.ts:197-207 | an upsert writes exactly when its key is not refused, and then inserts or overwrites that key's row and leaves every other row alone |
| Tables.UpsertAllOverrides | supabase/functions/fetch-kenya-data/index.ts:87-92 | a bulk upsert overrides the table with the batch's rows: keys the batch does not mention keep their rows |
| Tables.BatchRowsContent | supabase/functions/fetch-kenya-data/index.ts:87-92 | a bulk upsert leaves exactly the keys the batch mentions, and a key mentioned once holds that entry |
| Tables.UpsertAllIdempotent | supabase/functions/fetch-weather-forecast/index.ts:92-97 | running the same bulk upsert twice leaves the table as running it once |
| Location.CoordinateTextHasNoComma | supabase/functions/fetch-environmental-data/index.ts:117 | a group of the coordinate pattern holds no comma and does not start with white space |
| Location.MatchPairComplete | supabase/functions/fetch-environmental-data/index.ts:117 | every text of the shape group, comma, white space, group is recognised, with its own two groups |
| Location.MatchPairSound | supabase/functions/fetch-environmental-data/index.ts:117 | everything recognised has that shape, with white space alone between the comma and the second group |
| Location.CoordinateTextParses | supabase/functions/fetch-environmental-data/index.ts:119 | `parseFloat` reads every recognised group as a finite number |
| Location.DecimalTextIsCoordinateText | supabase/functions/fetch-environmental-data/index.ts:117 | a plain decimal is a group of the pattern |
| Location.FastPathIgnoresGeocoder | supabase/functions/fetch-environmental-data/index.ts:117-120 | text the pattern matches gets finite coordinates that no geocoder answer changes |
| Location.FastPathRoundTrip | supabase/functions/fetch-environmental-data/index.ts:117-120 | "lat,lng" written from two decimals, with any white space after the comma, reads back as exactly those two numbers |
| Location.SlowPathMiss | supabase/functions/fetch-environmental-data/index.ts:122-137 | unmatched text whose lookup fails or finds nothing gives `null` |
| Location.SlowPathHit | supabase/functions/fetch-environmental-data/index.ts:128-131 | unmatched text takes the first geocoding hit's latitude and longitude through `parseFloat` |
| Monthly.UpsertMonths | supabase/functions/fetch-environmental-data/index.ts:194-212 | the month loop leaves the table overridden by the month rows, and a refused write only skips its own month |
| Monthly.MonthWritesContent | supabase/functions/fetch-environmental-data/index.ts:194-212 | the rows written are exactly this user's listed months with a finite, unrefused value, each holding its month's value |
| Monthly.MonthWritesOwnUser | supabase/functions/fetch-environmental-data/index.ts:197-207 | every month row written is keyed by the user and a listed month |
| Rainfall.StoreRainfall | supabase/functions/fetch-environmental-data/index.ts:176-213 | storing rainfall leaves the table overridden by the month totals of the reply |
| Rainfall.TotalsIgnoreOrder | supabase/functions/fetch-environmental-data/index.ts:183-195 | the month totals do not depend on the order of the days |
| Rainfall.TotalsConserveRain | supabase/functions/fetch-environmental-data/index.ts:185-195 | with every day present, a month's total is the sum of its days, and the month totals add up to the sum of all days |
| Rainfall.RainfallWritesContent | supabase/functions/fetch-environmental-data/index.ts:185-207 | a month gets a row exactly when some day falls in it, all its days have a value and the write is not refused, and the row holds the sum of its days |
| Rainfall.ShortPrecipitationVoidsMonth | supabase/functions/fetch-environmental-data/index.ts:190-202 | a day past the end of `precipitation_sum` makes its month's total NaN, so that month gets no row |
| Rainfall.RainfallWritesOwnUser | supabase/functions/fetch-environmental-data/index.ts:197-207 | every rainfall row written belongs to the user the run was for |
| Vegetation.Ndvi | supabase/functions/fetch-environmental-data/index.ts:240 | the index is finite exactly when the average rainfall is, and then lies in [0.1, 0.9] |
| Vegetation.StoreVegetation | supabase/functions/fetch-environmental-data/index.ts:215-258 | a reply without its parameter blocks fails before any write; otherwise the table is overridden by the month indices |
| Vegetation.NdviClamp | supabase/functions/fetch-environmental-data/index.ts:240 | inside [0.1, 0.9] the index is the raw formula, below it 0.1, above it 0.9, and NaN rainfall gives NaN |
| Vegetation.NdviMonotone | supabase/functions/fetch-environmental-data/index.ts:240 | more rain or more sun never lowers the index |
| Vegetation.VegetationWritesContent | supabase/functions/fetch-environmental-data/index.ts:223-252 | a month gets a row exactly when some solar entry falls in it, each of its dates has a precipitation entry and the write is not refused; the row holds the index of the month's mean precipitation and mean solar radiation, and lies in [0.1, 0.9] |
| Vegetation.MonthIndexDefined | supabase/functions/fetch-environmental-data/index.ts:235-240 | a month's index is finite exactly when each of its entries has a precipitation value, and then it is the index of the two means, in [0.1, 0.9] |
| Vegetation.VegetationWritesOwnUser | supabase/functions/fetch-environmental-data/index.ts:242-252 | every vegetation row written belongs to the user the run was for |
| Vegetation.IndicesIgnoreOrder | supabase/functions/fetch-environmental-data/index.ts:223-237 | the month indices do not depend on the order of the days |
| Vegetation.NoSolarEntriesNoRows | supabase/functions/fetch-environmental-data/index.ts:217-235 | a reply with no solar entries writes nothing and does not fail |
| Vegetation.MonthKeysAgree | supabase/functions/fetch-environmental-data/index.ts:224-225 | the same day, written "YYYYMMDD" by NASA POWER and "YYYY-MM-DD" by Open-Meteo, gets the same "YYYY-MM" key in both tables |
| Metrics.CalculateMetrics | supabase/functions/fetch-environmental-data/index.ts:260-302 | the metrics step overrides the table with the soil-moisture and erosion-risk rows of the user, except refused ones |
| Metrics.WindowsAdjacent | supabase/functions/fetch-environmental-data/index.ts:262-269 | the recent window is the last min(n, 30) days and the previous one the up to 30 before; together they are the last min(n, 60) days |
| Metrics.ShortHistory | supabase/functions/fetch-environmental-data/index.ts:269-273 | with 30 days or fewer the previous window is empty, the trend is "down" and the change is NaN |
| Metrics.SteadyWindows | supabase/functions/fetch-environmental-data/index.ts:262-273 | with `a` mm a day recently and `b` before, the row reads `a` mm, trend "up" exactly when `a > b` (so equal averages give "down"), and change \|a − b\| / b × 100 |
| Metrics.HeavyDaysAppend | supabase/functions/fetch-environmental-data/index.ts:289 | counting heavy days distributes over concatenation |
| Metrics.HeavyDaysThreshold | supabase/functions/fetch-environmental-data/index.ts:289 | a heavy day is strictly above 20 mm, so 20 mm is not counted; no more days are counted than there are |
| Metrics.HeavyDaysBounds | supabase/functions/fetch-environmental-data/index.ts:289 | the heavy-day count never exceeds the window, and equals it when every day is heavy |
| Metrics.ErosionRiskConsistent | supabase/functions/fetch-environmental-data/index.ts:290-297 | the trend is "up" exactly when the risk is High; three heavy days make Medium and six make High; more heavy days never lower the risk |
| Writes.FoldAppend | supabase/functions/fetch-environmental-data/index.ts:66-98 | a loop over two runs of profiles writes the first run's rows, then the second's |
| Writes.FoldSkip | supabase/functions/fetch-environmental-data/index.ts:73-76 | a profile that writes nothing can be dropped from the loop |
| Writes.FoldIsolatesUsers | supabase/functions/fetch-environmental-data/index.ts:66-98 | in what the loop writes, a user listed once has exactly the rows written for it |
| Writes.ThenTwice | supabase/functions/fetch-environmental-data/index.ts:197-207 | writing the same rows twice leaves the tables as writing them once |
| EnvBatch.StoreUser | supabase/functions/fetch-environmental-data/index.ts:85-91 | rainfall is stored, then vegetation; metrics follow only when vegetation did not throw |
| EnvBatch.ProcessUser | supabase/functions/fetch-environmental-data/index.ts:67-97 | one profile's iteration ends as skipped, failed or processed, and the tables take exactly that profile's rows |
| EnvBatch.ProcessAll | supabase/functions/fetch-environmental-data/index.ts:66-98 | the loop leaves the tables overridden by every profile's rows in turn, whatever the outcome of each |
| EnvBatch.Serve | supabase/functions/fetch-environmental-data/index.ts:45-111 | the handler writes nothing when the profile query fails, and otherwise the whole batch |
| EnvBatch.ResponseRule | supabase/functions/fetch-environmental-data/index.ts:50-111 | the reply is 500 exactly when the profile query fails; otherwise it is 200, with the completion message whenever a profile was listed, however each fared |
| EnvBatch.UserWritesOwned | supabase/functions/fetch-environmental-data/index.ts:85-91 | every row one profile's processing writes is keyed by that profile's user |
| EnvBatch.BatchIsolatesUsers | supabase/functions/fetch-environmental-data/index.ts:66-98 | a profile's rows after the batch are exactly its own processing's rows, whatever the other profiles did |
| EnvBatch.RerunConverges | supabase/functions/fetch-environmental-data/index.ts:197-302 | a second run with the same inputs leaves the tables as one run: upserts never duplicate rows |
| EnvBatch.SkippedProfile | supabase/functions/fetch-environmental-data/index.ts:71-76 | a profile without coordinates is skipped, writes nothing, and the batch writes what it would without it |
| EnvBatch.FailedFetchWritesNothing | supabase/functions/fetch-environmental-data/index.ts:79-82 | a failed weather or NASA fetch fails the profile before any write |
| EnvBatch.MalformedPowerKeepsRainfall | supabase/functions/fetch-environmental-data/index.ts:85-88 | a malformed NASA reply fails the profile after its rainfall rows are written, and those rows stay |
| KenyaData.Message | supabase/functions/fetch-kenya-data/index.ts:23-56 | the function writes its own message for every failure except a failed geocoding or weather request |
| KenyaData.CountyQuery | supabase/functions/fetch-kenya-data/index.ts:32 | the county search uses the profile's location, or "Nairobi" when it is missing or empty |
| KenyaData.RainWindow | supabase/functions/fetch-kenya-data/index.ts:127-132 | a season window is reported exactly when both of its bounds are non-empty |
| KenyaData.WeatherRecords | supabase/functions/fetch-kenya-data/index.ts:76-85 | one weather record is built per date |
| KenyaData.SeasonRule | supabase/functions/fetch-kenya-data/index.ts:101-117 | bimodal: long rains March–May, short rains October–December; unimodal: main season April–October; every other case is off-season |
| KenyaData.RainyMonthCounts | supabase/functions/fetch-kenya-data/index.ts:105-117 | a bimodal county has six rainy months a year, and a unimodal one seven |
| KenyaData.RainWindowSplits | supabase/functions/fetch-kenya-data/index.ts:127-132 | a window splits back into its two bounds at the " - " |
| KenyaData.RecordFields | supabase/functions/fetch-kenya-data/index.ts:76-85 | record `i` carries the county, the `i`-th date, the `i`-th maximum and minimum temperature, precipitation, humidity and wind speed (null past a short series) and the source "open-meteo" |
| KenyaData.BatchKeysDistinct | supabase/functions/fetch-kenya-data/index.ts:75-91 | the batch's conflict keys (county, date, source) are distinct exactly when the dates are, so a repeated date makes the database reject the whole upsert |
| KenyaData.StoredRows | supabase/functions/fetch-kenya-data/index.ts:87-92 | the stored rows are keyed by county, date and source, one per date, and with distinct dates date `i` holds record `i` |
| KenyaData.UnauthenticatedRefused | supabase/functions/fetch-kenya-data/index.ts:22-23 | without a user the reply is "Not authenticated" and nothing is stored |
| KenyaData.MissingCounty | supabase/functions/fetch-kenya-data/index.ts:32-43 | no matching county is reported with the name searched for, and nothing is stored |
| KenyaData.UngeocodableCounty | supabase/functions/fetch-kenya-data/index.ts:47-56 | "<county>, Kenya" with no geocoding hit is "Could not geocode county", and nothing is stored |
| KenyaData.SuccessfulFetch | supabase/functions/fetch-kenya-data/index.ts:58-136 | a success reports the county's season and windows and the number of dates (0 without `daily`); an accepted upsert of distinct dates overrides the table with the batch, and otherwise the table is unchanged |
| KenyaData.ReplyIgnoresStore | supabase/functions/fetch-kenya-data/index.ts:87-92 | the reply is the same whether or not the database accepted the weather upsert |
| KenyaData.RefetchIsIdempotent | supabase/functions/fetch-kenya-data/index.ts:87-92 | when the upsert is accepted and its dates are distinct, a second call with the same answers leaves the reply and the table as the first |
| Forecast.Message | supabase/functions/fetch-weather-forecast/index.ts:34-73 | the function writes its own message exactly for the missing user, the missing location, the unknown place and the non-ok forecast |
| Forecast.ConditionsOf | supabase/functions/fetch-weather-forecast/index.ts:87-88 | Rainy exactly above 10 mm, Partly Cloudy in (0, 10], Sunny at 0 or below or when the value is missing |
| Forecast.ForecastRecords | supabase/functions/fetch-weather-forecast/index.ts:79-89 | one record is built per date |
| Forecast.ConditionsMonotone | supabase/functions/fetch-weather-forecast/index.ts:87-88 | more precipitation never gives a drier label |
| Forecast.CommaLocationNotGeocoded | supabase/functions/fetch-weather-forecast/index.ts:50-51 | a location with a comma is never geocoded; its coordinates are its first two comma pieces through `parseFloat` |
| Forecast.CommaPairRoundTrip | supabase/functions/fetch-weather-forecast/index.ts:50-51 | comma-free pieces joined with commas read back as the numbers in the first two pieces |
| Forecast.PlaceNameWithComma | supabase/functions/fetch-weather-forecast/index.ts:50-51 | "Name, Country" is read as two NaN coordinates and never geocoded, though the batch pattern would not match it |
| Forecast.UnknownPlace | supabase/functions/fetch-weather-forecast/index.ts:52-61 | a comma-free location with no geocoding hit is "Location not found", and nothing is stored |
| Forecast.LocationRequired | supabase/functions/fetch-weather-forecast/index.ts:43-45 | a missing or empty location is "User location not set", and nothing is stored |
| Forecast.NotOkStoresNothing | supabase/functions/fetch-weather-forecast/index.ts:71-74 | a non-ok forecast reply is "Failed to fetch weather forecast", and nothing is stored |
| Forecast.RecordFields | supabase/functions/fetch-weather-forecast/index.ts:79-89 | record `i` carries the user, the `i`-th date, the `i`-th precipitation, high and low temperature, humidity and wind speed (null past a short series), and the label of the `i`-th precipitation |
| Forecast.BatchKeysDistinct | supabase/functions/fetch-weather-forecast/index.ts:79-98 | the batch's conflict keys (user, date) are distinct exactly when the dates are, so a repeated date makes the database reject the whole upsert |
| Forecast.StoredRows | supabase/functions/fetch-weather-forecast/index.ts:92-97 | the stored rows are keyed by user and date, one per date, and with distinct dates date `i` holds record `i` |
| Forecast.StoredForecast | supabase/functions/fetch-weather-forecast/index.ts:92-105 | an accepted upsert of distinct dates answers the records and overrides the table with them; a refused one, or one repeating a date, is a 500 that stores nothing |
| Forecast.RefreshIsIdempotent | supabase/functions/fetch-weather-forecast/index.ts:92-97 | when the upsert is accepted and its dates are distinct, a second call with the same answers leaves the reply and the table as the first |
| CarbonCalc.Message | supabase/functions/calculate-carbon/index.ts:23-69 | the function writes its own message for every failure except a refused insert |
| CarbonCalc.ImprovementFactor | supabase/functions/calculate-carbon/index.ts:48 | the factor is never negative, and it is either 0 or ten times the improvement, whichever is larger |
| CarbonCalc.NoDataNoInsert | supabase/functions/calculate-carbon/index.ts:28-38 | missing or empty vegetation data is "No vegetation data available for calculation", and nothing is inserted |
| CarbonCalc.BaseRateFloor | supabase/functions/calculate-carbon/index.ts:41-49 | over a non-negative area the carbon is at least 3.5 × area, exactly that without an NDVI rise, and area × (3.5 + 10 × rise) with one |
| CarbonCalc.SingleRow | supabase/functions/calculate-carbon/index.ts:41-49 | a single vegetation row gives the base rate |
| CarbonCalc.EndsDecide | supabase/functions/calculate-carbon/index.ts:41-43 | only the first and the last NDVI matter |
| CarbonCalc.MoreGrowthMoreCarbon | supabase/functions/calculate-carbon/index.ts:43-49 | a larger NDVI rise never gives less carbon over a non-negative area |
| CarbonCalc.InsertAppends | supabase/functions/calculate-carbon/index.ts:52-69 | a success appends one row with the request's area, status "calculated" and a value of 15 dollars per ton, keeping the other rows |
| CarbonCalc.RepeatAddsRows | supabase/functions/calculate-carbon/index.ts:56-65 | two identical calls insert two identical rows: the insert has no conflict key |
| CarbonCalc.NonFiniteAreaRefused | supabase/functions/calculate-carbon/index.ts:49-69 | an area that is not a finite number reaches the NOT NULL columns as null, so the insert fails and nothing is recorded |
| Financial.Shown | src/pages/FinancialTools.tsx:184 | the list is the first ten records, or all of them when there are fewer |
| Financial.FinancialPage.FetchRecords | src/pages/FinancialTools.tsx:23-34 | the list becomes the user's records when the select succeeds and empty when it fails (`data || []`), and stays as it was without a user |
| Financial.FinancialPage.AddRecord | src/pages/FinancialTools.tsx:36-65 | an empty amount or category is refused and nothing is sent; success appends the record, clears amount, category and description, keeps the type and refetches, the list becoming the user's records, or empty when that select fails; a failure changes nothing |
| Financial.NetProfitIsSignedSum | src/pages/FinancialTools.tsx:67-75 | net profit is the sum of signed amounts: income adds, expense subtracts, any other type counts for nothing |
| Financial.TotalsAdditive | src/pages/FinancialTools.tsx:67-75 | the totals of a ledger are the totals of its parts added up |
| Financial.OneMoreRecord | src/pages/FinancialTools.tsx:67-73 | one more record moves the income or the expense total by its amount, or neither |
| Financial.TotalsIgnoreOrder | src/pages/FinancialTools.tsx:67-73 | the totals do not depend on the order of the records |
| Financial.AddedRecordCounts | src/pages/FinancialTools.tsx:45-73 | after a successful add, the user's matching total has grown by exactly the new amount |
| Financial.ShownRecords | src/pages/FinancialTools.tsx:184-191 | each listed record is the record at that position, shown with "+" exactly when it is income |
| CarbonTracker.Reverse | src/pages/CarbonTracker.tsx:144 | the reversal has the same length, with entry `i` taken from the other end |
| CarbonTracker.CarbonPage.Calculate | src/pages/CarbonTracker.tsx:33-62 | an empty area is refused with no call; otherwise the carbon function is called with `parseFloat` of the area, success refetches the credits, or empties the list when that select fails (src/pages/CarbonTracker.tsx:30), failure shows the error or the fallback, and loading ends false |
| CarbonTracker.CarbonPage.RenderChartInPlace | src/pages/CarbonTracker.tsx:144 | drawing the chart reverses the page's own list and draws the reversed list |
| CarbonTracker.VerifiedWithinTotal | src/pages/CarbonTracker.tsx:106-107 | the verified count is at most the total count, and equal to it exactly when every credit is verified |
| CarbonTracker.OneMoreCredit | src/pages/CarbonTracker.tsx:64-65 | one more credit adds its tons and its value to the totals, or 0 for a missing one |
| CarbonTracker.ValueIsPricedCarbon | src/pages/CarbonTracker.tsx:64-65 | when every row is priced at 15 dollars a ton, the total value is 15 times the total carbon |
| CarbonTracker.CalculationKeepsPricing | src/pages/CarbonTracker.tsx:44-65 | the carbon function keeps every row priced, so the page's two totals stay in that ratio |
| CarbonTracker.NonNumericAreaRefused | src/pages/CarbonTracker.tsx:34-46 | the guard `!areaHectares` only checks that the text is non-empty, not that it is a number: a non-empty text without a numeric prefix reaches the carbon function as NaN, travels as `null`, and nothing is recorded |
| CarbonTracker.NewCreditCounted | src/pages/CarbonTracker.tsx:55-64 | after a success the total carbon has grown by the new row's tons |
| CarbonTracker.ChartOldestFirst | src/pages/CarbonTracker.tsx:144 | a chart drawn from the newest-first list without touching it reads oldest first on every render |
| CarbonTracker.SecondRenderFlips | src/pages/CarbonTracker.tsx:144 | with the in-place reversal, the second render draws two credits newest first |
| WeatherPage.ForecastPage.Refresh | src/pages/WeatherForecast.tsx:31-45 | loading ends false whatever the outcome; success toasts "Weather forecast updated!" and shows the refetched days; failure toasts the error or "Failed to fetch weather forecast" and keeps the days |
| WeatherPage.OneAdvice | src/pages/WeatherForecast.tsx:126-136 | no days means no advice; otherwise exactly one message: irrigate below 5 mm, monitor from 5 to below 15, skip from 15 up, and a missing value counts as 0 |
| WeatherPage.WetterIsCalmer | src/pages/WeatherForecast.tsx:128-136 | more rain never makes the advice more urgent |
| WeatherPage.LabelAndAdvice | src/pages/WeatherForecast.tsx:128-136 | a day the forecast function labelled Sunny always gets the irrigate advice, and a Rainy one never does |
| Settings.SettingsPage.HandleProfileUpdate | src/pages/Settings.tsx:86-125 | an invalid form shows its first issue and writes nothing; a valid one writes the fields as typed and "Profile updated successfully", or shows the error or "Failed to update profile"; the busy flag always ends false |
| Settings.SettingsPage.HandlePasswordChange | src/pages/Settings.tsx:127-156 | an invalid pair shows its first issue; a valid one sets the password and clears both fields only on success, or shows the error or "Failed to update password"; the busy flag always ends false |
| Settings.BoundsValid | src/pages/Settings.tsx:15-19 | a bounded field is valid exactly when its trimmed length is within bounds |
| Settings.ProfileValid | src/pages/Settings.tsx:14-23 | the form is valid exactly when each name is at most 100 trimmed characters, the username 3 to 30, the phone number 10 to 20 characters, the location at most 200, and the land size is empty or a number |
| Settings.UsernameReportedFirst | src/pages/Settings.tsx:14-19 | a short username behind valid names is the first issue, so its message is the one shown |
| Settings.PasswordValid | src/pages/Settings.tsx:25-31 | a password pair is valid exactly when the new password has at least six characters and the confirmation equals it |
| Settings.MismatchOnConfirmation | src/pages/Settings.tsx:28-31 | a mismatch is the last issue, reported on the confirmation, and the only one when both are long enough |
| Settings.BlankLandSize | src/pages/Settings.tsx:20-22 | a land size of white space alone passes validation, because `Number` reads it as 0, but is stored as null |
| Settings.DecimalLandSize | src/pages/Settings.tsx:20-22 | a plain decimal land size is valid and stored as its value |

## Left out

- Arithmetic is exact `real` arithmetic. IEEE-754 rounding is not modelled, and neither is `toFixed` formatting of the metric values, the percentage or the page totals. The metric rows keep the number that would be formatted.
- Text lengths count Unicode characters, not UTF-16 code units. The JavaScript white-space set is modelled, but Unicode normalisation is not.
- EnvBatch.RerunConverges: the `updated_at: new Date().toISOString()` column written on every rainfall, vegetation and metric upsert (supabase/functions/fetch-environmental-data/index.ts:203, 248, 282, 298) is not modelled, so a rerun converges on the value columns only; `updated_at` takes the second run's time.
- Writes.ThenTwice: for the same reason, writing the same rows twice leaves the value columns as writing them once, not `updated_at`.
- The clock is an input. `Date` arithmetic for the six-month and thirty-day windows, the current month and "today" is replaced by the reply the services give, the `month` parameter and the `today` parameter.
- These are left out as plumbing: HTTP serving, CORS, environment variables, client creation, the authorisation header, and logging.
- The URLs of the geocoding, Open-Meteo and NASA POWER requests are not modelled. Each service is a function from its query (the location text, or the coordinates) to its answer.
- Errors from the database client and the function-invoking library carry messages the model does not know. They are `updateError`, `invokeError` and `errorMessage` parameters, or failures without a message.
- The `fetch-kenya-data` planting-calendar query is only passed through to the reply, so it is not modelled.
- `avgTemp` in the metrics step is computed but never used, so it is not modelled.
- Fetched lists are read in table order, not in the order the queries ask for:
  - the credit and ledger lists are newest first in the source;
  - the forecast days are the next seven, earliest first;
  - the vegetation rows are by creation time.

  The carbon function takes the vegetation NDVI values as a parameter, already in query order. The forecast page takes the refetched days as a parameter.
- Open-Meteo series holding `null` entries are not modelled. A series is a sequence of reals that may be shorter than `time`. A `daily` object that lacks a key altogether is not modelled either: in the batch, a missing `precipitation_sum` with at least one date throws a TypeError at supabase/functions/fetch-environmental-data/index.ts:190, before any write. With no dates, the rainfall step writes nothing and does not throw, the vegetation rows are stored, and only then does the metrics step throw at supabase/functions/fetch-environmental-data/index.ts:262. A missing `temperature_2m_mean` throws at supabase/functions/fetch-environmental-data/index.ts:265, after the rainfall and vegetation rows are stored and before either metric row. In every case the rows already written stay. `Daily` always holds every series.
- These Settings operations are not modelled: `loadProfile` (src/pages/Settings.tsx:62-84), the export and delete handlers (src/pages/Settings.tsx:158-205) and the notification and theme toggles. They are loading and browser plumbing, not validation.
- `Settings.SettingsPage.HandleProfileUpdate`: the update's `eq("id", user?.id)` without a signed-in user is not modelled. `account` is the signed-in user's profile.
- Monthly buckets and the vegetation precipitation lookup follow the code:
  - NASA POWER precipitation is looked up by the same date key as each solar entry, so a missing key makes that month's index NaN and its write is refused;
  - any JSON body from NASA POWER is accepted. The step throws (`Vegetation.Malformed`) when the `ALLSKY_SFC_SW_DWN` block is missing, which includes a missing `properties.parameter` block (`Object.entries` at supabase/functions/fetch-environmental-data/index.ts:223), and when the `PRECTOTCORR` block is missing while some solar entry exists (`precipData[date]` at supabase/functions/fetch-environmental-data/index.ts:231).
- The soil-moisture change divides by the previous average without a guard. When that average is 0 or missing, the change is not finite (`NotFinite`); no fallback value is invented.
- A refused metric upsert is not reported anywhere. The source never reads the error, so the model only leaves that row unwritten.

## Findings

| source | as written | input that shows it | evidently intended | confidence | as-written member | corrected member |
|---|---|---|---|---|---|---|
| src/pages/CarbonTracker.tsx:144 | `credits.reverse()` reverses the page's credit list in place on every render, then charts it | two credits fetched newest first, e.g. dates 2024-02-01 and 2024-01-01: the first render charts them oldest first, but any re-render (typing in the area field, toggling loading) charts them newest first, and the next one oldest first again | chart a reversed copy, oldest first on every render, and leave the fetched list newest first | not executed | CarbonTracker.CarbonPage.RenderChartInPlace, CarbonTracker.SecondRenderFlips | CarbonTracker.ChartSeries, CarbonTracker.ChartOldestFirst |
