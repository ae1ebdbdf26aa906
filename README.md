# A verified model of a diet tracker's core

The diet tracker is a small web application. Its server (`server/server.js`
over the repositories under `server/database/repositories/`) stores, for each
device:

- meals;
- meal items;
- water records;
- users with calorie and water goals and streak counters;
- a catalogue of foods;
- one body profile.

It computes:

- the basal metabolic rate (Mifflin-St Jeor);
- a calorie goal;
- per-unit food calories;
- a weekly report of seven days, Monday first.

Its React pages show:

- daily totals and status bands (`Refeicoes.jsx`, `Dashboard.jsx`);
- statistics (`Estatisticas.jsx`);
- the weekly report (`RelatorioSemanal.jsx`);
- achievements (`Conquistas.jsx`);
- a calendar (`CalendarioHistorico.jsx`);
- water intake (`Agua.jsx`);
- a goals editor (`AjustarMetas.jsx`).

They also export meals as CSV (`src/utils/export.js`).

This project models that core in Dafny and proves what each part promises.

**Layout.** One module per source file, plus shared modules:

| module | what it models |
|---|---|
| `Js` | JavaScript value semantics: `||` on numbers and strings, `Math.round`, `Math.max`/`min`, `parseInt` truncation. |
| `Text` | ASCII lower-casing, substring search, name order, `parseInt`/`parseFloat` on decimal text. |
| `Queries` | Filtering, stable insertion sort and `LIMIT`, standing in for the SQL the repositories run. |
| `Meals` | The meal record the store lists. It defines once the calorie rules that the pages and the server share. |
| `CalorieEngine` | The formulas and handlers of `server/server.js`. |
| `DayStatus` | The pages' fixed-goal status bands. |

- **Repositories.** `FoodRepository`, `ProfileRepository`, `UserRepository`, `MealRepository` and `WaterRepository` are in-memory tables. Each has:
  - a specification over a value table (a datatype);
  - a `class` whose methods update the table in place and are proved against that specification.
- **`Server`.**
  - An `Api` class holds the five stores and runs the handlers.
  - Lemmas tie the handlers together: a saved meal is listed, goals are read back, and the weekly report agrees with the per-day pages.
- **Pages.** One module per page (`MealsPage`, `DashboardPage`, `StatisticsPage`, `WeeklyReportPage`, `AchievementsPage`, `CalendarPage`, `WaterPage`, `GoalsPage`) and `CsvExport`.

**Modelling choices.**

- **Numbers.**
  - Calories are exact reals.
  - Water amounts, identifiers and goals are integers.
  - `Math.round(x)` is `Floor(x + 1/2)`.
  - A JavaScript number read from a record is `Absent` (undefined, null or `NaN`) or a value, so `x || d` is written out.
- **Dates** are day numbers: day 0 is 1970-01-01, a Thursday, and the weekday is the one `getDay` gives.
- **Timestamps.** Every store keeps a logical clock that ticks on every insert. So `ORDER BY timestamp DESC` is "newest insert first", and both timestamp ties and wall-clock time are left out.
- **Strings.**
  - Strings are sequences of characters.
  - `LOWER` changes only the ASCII letters A-Z.
  - `ORDER BY nome` is lexicographic order on characters.
- **Inputs.**
  - Today's date is a parameter wherever the source calls `new Date()`.
  - The list of foods seeded on start-up is a parameter of the `Api` constructor.
  - The number and date renderings of the CSV export are parameters too.
- **Behaviours of the code that the model keeps as written:**
  - A fast is not special on the server: `POST /api/refeicoes` stores whatever items and total it is sent, and only the meal form sends a fast with no items and total 0 (`CalorieEngine.NormalizeMeal`, `MealsPage.MealForm.SaveMeal`).
  - The server does not validate the meal type, and stores a meal with no items and no legacy fields as one empty synthetic item.
  - The meal and its items are not written atomically (see "Left out").
  - The weekly report and the pages count a meal with items at the sum of its items rather than at its stored total (`Meals.DayCalories`, `Meals.ServerDayCalories`).
  - The repository's `createAlimento` has no duplicate check; only `POST /api/alimentos` refuses a name that already exists, compared case-insensitively.
  - The goals table can hold two rows for one device (see "Left out").
  - Profile validation checks only that the fields are present and non-empty, so an age of 0 is accepted.
  - A goal of 0 or a missing goal is read as 1600 kcal or 4000 ml wherever the server evaluates days, so the zero-goal case is unreachable there.

## Model

| member | source | states |
|---|---|---|
| Js.Or | server/server.js:267 | `x \|\| d` on a number: the number when it is defined and non-zero, `d` otherwise |
| Js.OrZero | server/server.js:531 | `x \|\| 0` differs from `x` only on a missing value, which becomes 0 |
| Js.OrStr | server/server.js:373 | `s \|\| d` on a string: the string when it is present and non-empty, `d` otherwise |
| Js.OrInt | server/server.js:510-511 | `x \|\| d` on a stored integer: `x` unless it is 0 |
| Js.Round | server/server.js:255 | `Math.round`: the result is within one half of `x`, halves rounded up |
| Js.RoundShift | server/server.js:255 | rounding commutes with adding a whole number |
| Js.RoundMonotone | server/server.js:272 | `Math.round` is monotone |
| Js.RoundWhole | server/server.js:272 | a whole number rounds to itself |
| Js.Trunc | server/server.js:604 | `parseInt` of a number in ordinary notation (magnitude from 1e-6 up to 1e21) truncates toward zero, on both signs |
| Js.Max | src/components/AjustarMetas.jsx:44 | `Math.max`: an upper bound of both arguments and equal to one of them |
| Js.Min | src/components/Estatisticas.jsx:166-168 | `Math.min`: a lower bound of both arguments and equal to one of them |
| Js.MinReal | src/components/Agua.jsx:86 | `Math.min` on reals: a lower bound of both arguments and equal to one of them |
| Js.MeanBounds | src/components/RelatorioSemanal.jsx:40-43 | a mean of values that lie between `lo` and `hi` lies between them too |
| Js.DivMonotone | src/components/RelatorioSemanal.jsx:44-46 | dividing by a positive count keeps the order of two totals |
| Text.Lower | server/database/repositories/alimentos.js:29 | `LOWER` on one character: A-Z move to a-z and nothing else changes |
| Text.LowerStr | server/database/repositories/alimentos.js:8 | `LOWER` on a string keeps its length and lowers each character |
| Text.LowerStrIdempotent | server/database/repositories/alimentos.js:29 | lower-casing twice is lower-casing once |
| Text.ContainsAt | src/components/Refeicoes.jsx:270 | `includes` holds exactly when the term occurs at some position |
| Text.ContainsEmpty | src/components/Refeicoes.jsx:269-271 | every name contains the empty term |
| Text.LessEqTotal | server/database/repositories/alimentos.js:9 | the name order of `ORDER BY nome` is total |
| Text.LessEqTransitive | server/database/repositories/alimentos.js:9 | the name order is transitive |
| Text.LessEqAntisymmetric | server/database/repositories/alimentos.js:9 | two names ordered both ways are equal |
| Text.SkipSpace | src/components/AjustarMetas.jsx:43 | `parseInt` and `parseFloat` drop a leading run of JavaScript white space (tab, vertical tab, form feed, space, no-break space, byte order mark, the Unicode space separators and the line terminators): the rest is a suffix that does not start with one |
| Text.DigitPrefix | src/components/AjustarMetas.jsx:43 | the longest prefix of digits: all digits, and followed by a non-digit or nothing |
| Text.HexPrefix | src/components/AjustarMetas.jsx:43 | the longest prefix of hexadecimal digits: all hexadecimal, and followed by another character or nothing |
| Text.ParseInt | src/components/AjustarMetas.jsx:43 | `parseInt` with no radix is `NaN` exactly when no digit follows the optional sign, counting hexadecimal digits after a `0x` prefix and decimal digits otherwise; a result has the sign's direction |
| Text.ParseIntExamples | src/components/AjustarMetas.jsx:43 | "250" parses as 250; "" and "abc" parse as `NaN` |
| Text.ParseIntSignExample | src/components/Agua.jsx:45 | " -12ml" parses as -12: white space skipped, sign kept, parsing stops at the first non-digit |
| Text.ParseFloatExamples | src/components/Refeicoes.jsx:142-144 | "1.5" parses as 1.5 and "" as `NaN` |
| Text.FloatOf | server/server.js:382-384 | `parseFloat` of a body field: a number is itself, and `undefined` or `null` is `NaN` |
| Text.IntOf | server/server.js:692-693 | `parseInt` of a body field: a number in ordinary notation is truncated, and `undefined` or `null` is `NaN` |
| Text.ParseFloat | src/components/Refeicoes.jsx:142-144 | `parseFloat` is `NaN` exactly when neither a digit nor a '.' and a digit follow the optional sign; the value has the sign's direction (exponent included) |
| Text.UnsignedDecimal | src/components/Refeicoes.jsx:142-144 | the unsigned literal `parseFloat` reads is absent exactly when no digit starts it and no '.' and digit do; a value is never negative |
| Text.ParseIntHexExamples | src/components/AjustarMetas.jsx:43 | "0x1A" parses as 26 and "0x" as `NaN` |
| Text.ParseIntUnicodeSpaceExample | src/components/AjustarMetas.jsx:43 | a no-break space and a vertical tab are skipped like spaces |
| Text.ParseFloatExponentExample | src/components/Refeicoes.jsx:142-144 | "1e2" parses as 100 |
| Queries.Filter | server/database/repositories/refeicoes.js:37-57 | a `WHERE` clause keeps exactly the rows that satisfy it, never more rows than were given |
| Queries.Sort | server/database/repositories/alimentos.js:9 | `ORDER BY` returns a sorted permutation of its rows |
| Queries.SortSorted | server/database/repositories/alimentos.js:9 | ordering rows that are already ordered changes nothing |
| Queries.Take | server/database/repositories/alimentos.js:10 | `LIMIT n` returns a prefix of at most `n` rows: all rows when there are at most `n`, and exactly the first `n` when there are more |
| Queries.TakeSortedLeavesOut | src/components/Estatisticas.jsx:113-115 | an entry that a sorted prefix of length `n` leaves out comes after all `n` kept entries |
| Queries.SumIntPermutation | server/database/repositories/agua.js:24 | a sum does not depend on the order of the rows |
| CalorieEngine.TmbGenderGap | server/server.js:252-256 | for the same body, the 'masculino' rate is exactly 166 above the rate for any other `genero` |
| CalorieEngine.TmbMonotone | server/server.js:252-256 | the rate never falls when weight or height grows or age falls |
| CalorieEngine.TmbExample | server/server.js:252-256 | 30 years, 'masculino', 180 cm and 80 kg give 1780 |
| CalorieEngine.ActivityFactor | server/server.js:259-268 | the factor lies in [1.2, 1.9], and is 1.2 for any other string that is not an inherited object key |
| CalorieEngine.ActivityFactorIncreasing | server/server.js:260-266 | from 'sedentario' to 'muito_ativo' each level has a strictly larger factor (1.2, 1.375, 1.55, 1.725, 1.9) |
| CalorieEngine.MetaCalorica | server/server.js:271-283 | the 'emagrecimento' goal is never below 1200 |
| CalorieEngine.MetaObjectivesOrdered | server/server.js:271-283 | 'manutencao' and any other objective give maintenance `m`; 'ganho_massa' gives `m + 400`; 'emagrecimento' gives `m - 500` from `m = 1700` on and 1200 below that |
| CalorieEngine.MetaExample | server/server.js:271-283 | rate 1780 at factor 1.55: maintenance 2759, losing 2259, gaining 3159 |
| CalorieEngine.MetaEndpoint | server/server.js:620-640 | the endpoint answers `{meta: 1600, tmb: 0}` exactly when the profile is missing or one of its six fields is falsy |
| CalorieEngine.MetaEndpointComputes | server/server.js:629-635 | with a complete profile, `tmb` is the stored body's rate and `meta` the goal computed from it, its factor and its objective |
| CalorieEngine.ConvertCalories | server/server.js:329-333 | an unknown food gives the 404 error exactly, and every known food gives a number |
| CalorieEngine.UnitIsFiftyGrams | server/server.js:338-340 | one 'unidade' of a food measured in 'g' counts as 50 grams |
| CalorieEngine.OtherUnitsAreGrams | server/server.js:341-345 | every other unit, 'ml' on a 'g' food included, is counted as grams: the result is `Round(cal / 100 * q)`, the same as for 'g' |
| CalorieEngine.ConvertMonotone | server/server.js:335-347 | for a food with non-negative calories, more of it never gives fewer calories |
| CalorieEngine.ConvertExample | server/server.js:338-347 | two units of a 155 kcal/100 g food give 155 |
| CalorieEngine.NormalizeMeal | server/server.js:363-393 | the date is the given one or today, and the notes are `notas \|\| ''`, in both shapes |
| CalorieEngine.NormalizeItemsShape | server/server.js:366-375 | an items array, even an empty one, is stored as sent; the total is a truthy `calorias_total`, otherwise the item sum with missing values as 0 |
| CalorieEngine.NormalizeLegacyShape | server/server.js:379-393 | a body without an items array becomes one item in 'g', carrying the food id `\|\| null`, the name `\|\| ''`, `parseFloat(quantidade) \|\| 0`, and calories equal to the total `parseFloat(calorias) \|\| 0` |
| CalorieEngine.ValidatePerfil | server/server.js:581-610 | a body is accepted exactly when none of the six fields is blank; otherwise the first blank field in the order idade, genero, altura, peso, atividade, objetivo gives the message; an accepted body gives the parsed profile |
| CalorieEngine.ZeroAgeAcceptedButIgnored | server/server.js:575-627 | an age of 0 passes validation, yet the goal endpoint treats it as missing and answers the fallback |
| CalorieEngine.NumericProfileGetsGoal | server/server.js:581-635 | a validated profile with non-zero numbers (age at least 1) gets a computed goal, not the fallback |
| CalorieEngine.Weekday | server/server.js:514 | `getDay` lies in 0..6 |
| CalorieEngine.MondayOfWeek | server/server.js:514-516 | the start day is a Monday within the six days before or on today; a Sunday maps to the Monday six days earlier |
| CalorieEngine.WeekDays | server/server.js:518-523 | the loop yields 7 consecutive ascending dates, starting on that Monday, today among them |
| CalorieEngine.CalorieGoal | server/server.js:510 | `metas.calorias \|\| 1600` is never 0 |
| CalorieEngine.WaterGoal | server/server.js:511 | `metas.agua \|\| 4000` is never 0 |
| CalorieEngine.EvaluateDay | server/server.js:529-548 | a day record carries: the meal count; the server's calorie sum; the water total; `bateuCalorias` iff 80 % of the goal ≤ total ≤ goal; `bateuAgua` iff water ≥ goal; `bateuAmbas` iff both |
| CalorieEngine.EmptyDayMissesCalories | server/server.js:536 | with a positive goal, a day with no meals never meets the calorie goal |
| CalorieEngine.GoalsDefault | server/server.js:510-511 | unset goals (0) and the stored defaults both give 1600 kcal and 4000 ml |
| CalorieEngine.Tmb | server/server.js:251-255 | no contract of its own: the Mifflin-St Jeor rate, +5 for 'masculino' and -161 otherwise, rounded; `TmbGenderGap`, `TmbMonotone` and `TmbExample` state its properties |
| CalorieEngine.Maintenance | server/server.js:272 | no contract of its own: the rate times the activity factor, rounded; `MetaObjectivesOrdered` and `MetaExample` state its properties |
| CalorieEngine.ProfileComplete | server/server.js:626 | no contract of its own: all six profile fields truthy; `MetaEndpoint` is the fallback exactly when it fails |
| CalorieEngine.Monday | server/server.js:514-516 | no contract of its own: the start of the report week; `MondayOfWeek` states that it is a Monday at most six days before today |
| CalorieEngine.InCalorieBand | server/server.js:536 | no contract of its own: 80-100 % of the goal; `EvaluateDay` sets `bateuCalorias` exactly when it holds and `DayStatus.OkIsReportBand` ties the dashboard's 'atingida' to it |
| DayStatus.CalorieStatus | src/components/Refeicoes.jsx:259-263 | 'acima' iff total > 1600, 'abaixo' iff total < 1280, 'ok' iff 1280 ≤ total ≤ 1600 |
| DayStatus.OkIsReportBand | src/components/Dashboard.jsx:69-73 | the pages' 'ok' band is the weekly report's calorie band at the goal 1600 |
| DayStatus.CaloriasRestantes | src/components/Refeicoes.jsx:255-257 | the remainder is never negative: it is what is left to 1600, and 0 above 1600 |
| DayStatus.Excesso | src/components/Dashboard.jsx:76-77 | the excess is positive exactly when `ultrapassou`, and is then `total - 1600` |
| DayStatus.RestantesAndExcesso | src/components/Dashboard.jsx:65-77 | at most one of remainder and excess is non-zero, and their difference is `1600 - total` |
| DayStatus.AguaFalta | src/components/Agua.jsx:64 | water missing is never negative, is 0 exactly when at least 4000 ml were drunk, and otherwise completes 4000 |
| DayStatus.Progress | src/components/Agua.jsx:65-86 | a bar's width is at most 100, is full once the goal is reached, and is below 100 before |
| DayStatus.WaterBarFullIffMet | src/components/Agua.jsx:86-94 | the water bar is full exactly when "Meta atingida" shows |
| Meals.MealRulesAgree | server/server.js:529-534 | the server's per-meal rule and the pages' rule (src/components/Refeicoes.jsx:247-253) agree on a record whose `calorias` equals `calorias_total` |
| Meals.DayRulesAgree | server/server.js:529-534 | the server's and the pages' daily totals agree on every list that the GET handler formats |
| Meals.DayCaloriesAppend | src/components/Refeicoes.jsx:247-253 | the total of two lists of meals is the sum of their totals |
| Meals.DayCaloriesReverse | src/components/Refeicoes.jsx:247-253 | the daily total does not depend on the listing order |
| Meals.RawSumWhenDefined | src/utils/export.js:41-43 | the unguarded item sum is the guarded one when no value is missing |
| Meals.RawSumNaN | src/utils/export.js:41-43 | one missing item value makes the unguarded sum `NaN` |
| Meals.DayCaloriesNonNegative | src/components/Dashboard.jsx:53-59 | non-negative item values and stored totals give a non-negative day |
| Meals.RawMealCaloriesAgree | src/components/CalendarioHistorico.jsx:158-160 | the unguarded per-meal rule is the pages' rule when every item has a value, and `NaN` when one is missing |
| Meals.CountTipo | src/components/Dashboard.jsx:181-182 | a type's count never exceeds the number of meals |
| Meals.CountTipoAppend | src/components/Dashboard.jsx:181-182 | an appended meal adds one to its own type's count and nothing to the others |
| Meals.CountsPartition | src/components/Dashboard.jsx:181-182 | with distinct keys, the per-type counts plus the meals of no listed type make up all the meals, so the counts sum to at most `totalRefeicoes` |
| Meals.UncountedNone | src/components/Estatisticas.jsx:120-135 | when every meal's type is a key, no meal is left uncounted |
| Meals.CountAbsentTipo | src/components/Estatisticas.jsx:127-131 | a key that no meal has counts 0 |
| Meals.ItemsCalories | src/components/Dashboard.jsx:56 | no contract of its own: the `item.calorias \|\| 0` sum; `ItemsNonNegative` bounds it and `RawSumWhenDefined` ties it to the unguarded sum |
| Meals.ItemsNonNegative | src/components/Dashboard.jsx:56 | items whose calories are all non-negative sum to a non-negative total |
| Meals.MealCalories | src/components/Dashboard.jsx:55-58 | no contract of its own: the pages' per-meal rule; `MealRulesAgree` and `RawMealCaloriesAgree` relate it to the other rules |
| Meals.DayCalories | src/components/Dashboard.jsx:53-59 | no contract of its own: the pages' day total; `DayCaloriesAppend`, `DayCaloriesReverse`, `DayCaloriesNonNegative` and `DayRulesAgree` state its properties |
| Meals.ServerMealCalories | server/server.js:530-533 | no contract of its own: the weekly report's per-meal rule; `MealRulesAgree` states when it equals the pages' rule |
| Meals.ServerDayCalories | server/server.js:529-534 | no contract of its own: the weekly report's day total; `DayRulesAgree` states when it equals the pages' total |
| Meals.RawItemsSum | src/utils/export.js:42 | no contract of its own: the unguarded item sum; `RawSumWhenDefined` and `RawSumNaN` state its two outcomes |
| Meals.RawMealCalories | src/utils/export.js:41-43 | no contract of its own: the unguarded per-meal rule; `RawMealCaloriesAgree` states both of its outcomes |
| FoodRepository.NameOrderIsPreorder | server/database/repositories/alimentos.js:9 | ordering foods by name is a total preorder, so sorting by it is well defined |
| FoodRepository.GetAll | server/database/repositories/alimentos.js:4-18 | `getAllAlimentos`: at most 50 foods, sorted by name, all from the table. With a non-empty search every food's lowered name contains the lowered term. The result is a sub-multiset of the candidates: all of them when there are at most 50, and otherwise exactly 50, each ordered before every candidate left out |
| FoodRepository.EmptySearchIsNoSearch | server/database/repositories/alimentos.js:5-17 | an empty search string returns what no search returns |
| FoodRepository.EmptyTermMatchesAll | server/database/repositories/alimentos.js:8 | the empty term matches every food |
| FoodRepository.ById | server/database/repositories/alimentos.js:21-24 | `getAlimentoById`: a food with that id from the table, or `null` exactly when no food has it |
| FoodRepository.ByNome | server/database/repositories/alimentos.js:27-33 | `getAlimentoByNome`: a food whose lowered name equals the lowered name, or `null` exactly when none matches |
| FoodRepository.ByIdFindsRow | server/database/repositories/alimentos.js:21-24 | in a table with distinct ids, every row is found by its own id |
| FoodRepository.ByNomeIgnoresCase | server/database/repositories/alimentos.js:29 | looking a name up lowered or as written gives the same food |
| FoodRepository.NewFood | server/database/repositories/alimentos.js:36-44 | a created food carries the fresh id and the given fields, with `unidade` defaulting to 'g' |
| FoodRepository.CreatedValid | server/database/repositories/alimentos.js:36-44 | creating a food keeps the ids distinct and below the next id; there is no name check |
| FoodRepository.InitializedValid | server/database/repositories/alimentos.js:47-54 | seeding keeps the table valid |
| FoodRepository.InitializedExtends | server/database/repositories/alimentos.js:47-54 | seeding only appends foods |
| FoodRepository.SeededNamesPresent | server/database/repositories/alimentos.js:47-54 | after seeding, every seed name is found by `getAlimentoByNome` |
| FoodRepository.SeedingPresentNamesIsIdentity | server/database/repositories/alimentos.js:49-52 | when every seed name is already present, seeding changes nothing |
| FoodRepository.InitializeIdempotent | server/database/repositories/alimentos.js:47-54 | seeding twice leaves the table that seeding once leaves |
| FoodRepository.InitializedNamesDistinct | server/database/repositories/alimentos.js:47-54 | seeding a table whose names differ case-insensitively keeps them so |
| FoodRepository.FoodStore.constructor | server/database/repositories/alimentos.js:1 | a new store has no foods and the next id 1 |
| FoodRepository.FoodStore.CreateAlimento | server/database/repositories/alimentos.js:36-44 | `createAlimento` appends the new food under a fresh id, returns it, and keeps the store valid |
| FoodRepository.FoodStore.InitializeAlimentos | server/database/repositories/alimentos.js:47-54 | the check-then-insert loop leaves the table that the seeding specification defines |
| FoodRepository.Matching | server/database/repositories/alimentos.js:8 | no contract of its own: the rows whose lowered name contains the lowered term; `EmptyTermMatchesAll` states that the empty term keeps all |
| FoodRepository.Candidates | server/database/repositories/alimentos.js:5-17 | no contract of its own: the matching rows for a truthy search, all rows otherwise; `GetAll` states what it keeps of them |
| FoodRepository.Created | server/database/repositories/alimentos.js:36-44 | no contract of its own: the table with the new row appended; `CreatedValid` states that ids stay serial |
| FoodRepository.Initialized | server/database/repositories/alimentos.js:47-54 | no contract of its own: the table after seeding; `InitializedValid`, `InitializedExtends`, `SeededNamesPresent`, `SeedingPresentNamesIsIdentity`, `InitializeIdempotent` and `InitializedNamesDistinct` state its properties |
| ProfileRepository.GetPerfil | server/database/repositories/perfil.js:4-7 | `getPerfil`: the profile of a row of that device, or `null` exactly when the device has no row |
| ProfileRepository.Upserted | server/database/repositories/perfil.js:10-27 | an upsert adds at most one row |
| ProfileRepository.GetAfterUpsert | server/database/repositories/perfil.js:4-26 | after `upsertPerfil`, `getPerfil` returns exactly the upserted fields |
| ProfileRepository.UpsertLeavesOthers | server/database/repositories/perfil.js:14-22 | an upsert changes no other device's profile |
| ProfileRepository.UpsertCreatesOnlyWhenMissing | server/database/repositories/perfil.js:10-14 | a row is added exactly when the device had no profile |
| ProfileRepository.UpsertedDevices | server/database/repositories/perfil.js:10-22 | every row after an upsert is the device's row or was there before |
| ProfileRepository.UpsertKeepsDevicesUnique | server/database/repositories/perfil.js:14 | with one profile per device before an upsert, there is one per device after it |
| ProfileRepository.ExactlyOneRowAfterUpsert | server/database/repositories/perfil.js:14-22 | after an upsert the device has exactly one profile row |
| ProfileRepository.UpsertIdempotent | server/database/repositories/perfil.js:10-22 | upserting the same profile twice is upserting it once |
| ProfileRepository.ProfileStore.constructor | server/database/repositories/perfil.js:1 | a new store has no profiles |
| ProfileRepository.ProfileStore.UpsertPerfil | server/database/repositories/perfil.js:10-27 | the store's rows become the upserted rows, still one per device, and the stored fields are returned |
| UserRepository.Coalesce | server/database/repositories/usuarios.js:49-50 | `COALESCE($1, current)`: a given value replaces the current one, and an omitted value keeps it |
| UserRepository.FindMetas | server/database/repositories/usuarios.js:33 | the goals of a row of that device, or nothing exactly when the device has no goals row |
| UserRepository.FindStreaks | server/database/repositories/usuarios.js:60 | the streaks of a row of that device, or nothing exactly when the device has no streaks row |
| UserRepository.MetasUpdated | server/database/repositories/usuarios.js:47-54 | `UPDATE metas`: the same rows and devices; other devices' rows unchanged; the device's rows with each given field replaced and each omitted one kept |
| UserRepository.StreaksUpdated | server/database/repositories/usuarios.js:73-81 | `UPDATE streaks`, with the same rule for `calorias`, `agua` and `ambas` |
| UserRepository.WithUserIdempotent | server/database/repositories/usuarios.js:4-29 | calling `getOrCreateUsuario` twice has the effect of calling it once |
| UserRepository.AfterGetOrCreate | server/database/repositories/usuarios.js:4-29 | after `getOrCreateUsuario` the device is a user, and its goals and streaks read as before: stored values, or defaults 1600/4000 and 0/0/0 for a new device |
| UserRepository.GetMetasLazyDefault | server/database/repositories/usuarios.js:32-43 | `getMetas` returns the stored row, or inserts and returns 1600/4000; the row it leaves is what it returned, and reading again inserts nothing |
| UserRepository.GetStreaksLazyDefault | server/database/repositories/usuarios.js:59-69 | `getStreaks` returns the stored row, or inserts and returns zeros, with the same read-back and idempotence |
| UserRepository.FindMetasUpdated | server/database/repositories/usuarios.js:47-54 | an update neither adds nor removes a device's goals row; the device's first row is updated field by field with COALESCE, and other devices read the same |
| UserRepository.FindStreaksUpdated | server/database/repositories/usuarios.js:73-81 | the same for the streaks row |
| UserRepository.UpdateMetasResult | server/database/repositories/usuarios.js:32-56 | `updateMetas` returns the COALESCE-updated row; on a device without a goals row it updates nothing and returns the lazily created 1600/4000; other devices keep their goals |
| UserRepository.UpdateStreaksResult | server/database/repositories/usuarios.js:59-83 | `updateStreaks` follows the same rule, with zeros as the lazy defaults |
| UserRepository.UserStore.constructor | server/database/repositories/usuarios.js:1 | a new store has no users, goals or streaks |
| UserRepository.UserStore.GetOrCreateUsuario | server/database/repositories/usuarios.js:4-29 | the tables become those of the `getOrCreateUsuario` specification, and the device is a user |
| UserRepository.UserStore.GetMetas | server/database/repositories/usuarios.js:32-43 | the tables get the lazily inserted row, and the result is the stored goals or the defaults |
| UserRepository.UserStore.UpdateMetas | server/database/repositories/usuarios.js:46-56 | the goals table is updated with COALESCE, then read as `getMetas` reads it |
| UserRepository.UserStore.GetStreaks | server/database/repositories/usuarios.js:59-69 | the tables get the lazily inserted row, and the result is the stored streaks or zeros |
| UserRepository.UserStore.UpdateStreaks | server/database/repositories/usuarios.js:72-83 | the streaks table is updated with COALESCE, then read as `getStreaks` reads it |
| UserRepository.WithUser | server/database/repositories/usuarios.js:4-29 | no contract of its own: the tables after `getOrCreateUsuario`; `WithUserIdempotent` and `AfterGetOrCreate` state its properties |
| UserRepository.WithMetas | server/database/repositories/usuarios.js:32-41 | no contract of its own: the tables after `getMetas`; `GetMetasLazyDefault` states that the device then has the row it was given |
| UserRepository.MetasOf | server/database/repositories/usuarios.js:32-43 | no contract of its own: the goals `getMetas` returns; `GetMetasLazyDefault` states the default 1600 and 4000 |
| MealRepository.FoodRef | server/database/repositories/refeicoes.js:23 | `alimento_id \|\| null`: an id of 0 or a missing id is stored as `null`, and any other id as given |
| MealRepository.StoredItem | server/database/repositories/refeicoes.js:17-29 | an item row carries: the meal id and a fresh id; the food id `\|\| null`; `alimento_nome \|\| nome \|\| ''`; `quantidade \|\| 0`; `unidade \|\| 'g'`; `calorias \|\| 0` |
| MealRepository.StoredItems | server/database/repositories/refeicoes.js:15-31 | the item rows of one meal, one per item, in list order, with consecutive ids |
| MealRepository.CreatedValid | server/database/repositories/refeicoes.js:4-34 | creating a meal keeps the table valid: increasing ids, items pointing at existing ids, timestamps below the clock |
| MealRepository.ItemsOf | server/database/repositories/refeicoes.js:39-52 | a meal's listed items are one per item row of that meal |
| MealRepository.ListedAll | server/database/repositories/refeicoes.js:61-64 | the listing maps each row to the meal with its items, in the rows' order |
| MealRepository.OrdersArePreorders | server/database/repositories/refeicoes.js:57-97 | `timestamp DESC` and `data DESC, timestamp DESC` are total preorders |
| MealRepository.DayRows | server/database/repositories/refeicoes.js:53-57 | the rows of `getRefeicoesByDate`: exactly the device's meals of that date, as a permutation of the filtered table, newest first |
| MealRepository.ByDate | server/database/repositories/refeicoes.js:37-65 | one listed meal per selected row, in that order, each with its own items |
| MealRepository.PeriodRows | server/database/repositories/refeicoes.js:93-97 | the rows of `getRefeicoesByPeriod`: exactly the device's meals with `inicio ≤ data ≤ fim`, both ends included, latest date first and newest first within a date |
| MealRepository.ByPeriod | server/database/repositories/refeicoes.js:77-105 | one listed meal per selected row, in that order, each with its own items |
| MealRepository.NewMealItems | server/database/repositories/refeicoes.js:15-31 | the items of a new meal are exactly the items it was created with, defaulted and in list order; no older item points at it |
| MealRepository.NewMealFirst | server/database/repositories/refeicoes.js:57 | a newly created meal heads its day's listing |
| MealRepository.CreateThenList | server/database/repositories/refeicoes.js:4-65 | creating a meal and listing its day gives it first, with total `calorias_total \|\| 0`, notes `notas \|\| ''` and its items defaulted and in list order |
| MealRepository.Deleted | server/database/repositories/refeicoes.js:70 | the delete keeps exactly the rows whose id or device differs |
| MealRepository.DeleteRemovesIffOwned | server/database/repositories/refeicoes.js:68-74 | a row is removed, and `true` returned, exactly when the id belongs to the device; otherwise the table is unchanged |
| MealRepository.DeleteHidesOnlyThatMeal | server/database/repositories/refeicoes.js:68-74 | after a delete that meal is listed on no day, while other devices' listings, same id included, are unchanged |
| MealRepository.FilterTwice | server/database/repositories/refeicoes.js:55-70 | selecting a day after a delete is selecting it directly, when the delete spares every row the day keeps |
| MealRepository.MealStore.constructor | server/database/repositories/refeicoes.js:1 | a new store has no meals and no items |
| MealRepository.MealStore.CreateRefeicao | server/database/repositories/refeicoes.js:4-34 | inserting the meal and then its items one by one leaves the table of the creation specification, and returns the new meal row |
| MealRepository.MealStore.InsertItems | server/database/repositories/refeicoes.js:16-30 | the item loop appends the defaulted rows in list order with consecutive ids, and changes nothing else |
| MealRepository.MealStore.DeleteRefeicao | server/database/repositories/refeicoes.js:68-74 | the meal rows become those the delete keeps; the result says whether a row of that id and device existed |
| MealRepository.NewMealRow | server/database/repositories/refeicoes.js:5-10 | no contract of its own: the inserted meal row, `calorias_total \|\| 0` and `notas \|\| ''`; `MealStore.CreateRefeicao` returns it |
| MealRepository.Created | server/database/repositories/refeicoes.js:4-34 | no contract of its own: both tables after the insert; `CreatedValid`, `NewMealItems`, `NewMealFirst` and `CreateThenList` state its properties |
| MealRepository.AsListed | server/database/repositories/refeicoes.js:39-64 | no contract of its own: a row with its items and no `calorias` column; `ListedAll`, `ByDate` and `ByPeriod` list rows through it |
| WaterRepository.OrdersArePreorders | server/database/repositories/agua.js:19-43 | both water orderings are total preorders |
| WaterRepository.ByDate | server/database/repositories/agua.js:15-27 | `getAguaByDate`: the records are exactly the device's rows of that date, newest first, and the total is the sum of their amounts |
| WaterRepository.EmptyDayTotal | server/database/repositories/agua.js:23-26 | a day without records has total 0 and no records |
| WaterRepository.ByPeriod | server/database/repositories/agua.js:39-47 | `getAguaByPeriod`: the device's rows with `inicio ≤ data ≤ fim` inclusive, latest date first and newest first within a date |
| WaterRepository.OneDayPeriod | server/database/repositories/agua.js:42 | a one-day period selects what that day selects |
| WaterRepository.Deleted | server/database/repositories/agua.js:32 | the delete keeps exactly the rows whose id or device differs |
| WaterRepository.DeleteRemovesIffOwned | server/database/repositories/agua.js:30-36 | a row is removed, and `true` returned, exactly when the id belongs to the device; otherwise nothing changes |
| WaterRepository.CreatedValid | server/database/repositories/agua.js:4-12 | adding a record keeps ids increasing and timestamps below the clock |
| WaterRepository.CreateAddsToTotal | server/database/repositories/agua.js:4-27 | adding `quantidade` to a day raises that day's total by exactly that amount and no other day's |
| WaterRepository.CreateListsNewestFirst | server/database/repositories/agua.js:17-20 | a newly added record heads its day's list |
| WaterRepository.NewestHeads | server/database/repositories/agua.js:19 | a record newer than all others heads its day's list |
| WaterRepository.WaterStore.constructor | server/database/repositories/agua.js:1 | a new store has no records |
| WaterRepository.WaterStore.CreateAgua | server/database/repositories/agua.js:4-12 | `createAgua` appends the row with the given device, date and amount unchanged, returns it, and keeps the store valid |
| WaterRepository.WaterStore.DeleteAgua | server/database/repositories/agua.js:30-36 | the rows become those the delete keeps; the result says whether a row of that id and device existed |
| WaterRepository.NewRow | server/database/repositories/agua.js:5-11 | no contract of its own: the inserted row, device, date and amount unchanged; `WaterStore.CreateAgua` returns it |
| WaterRepository.Created | server/database/repositories/agua.js:4-12 | no contract of its own: the table with the new row appended; `CreatedValid`, `CreateAddsToTotal` and `CreateListsNewestFirst` state its properties |
| Server.FormatMeal | server/server.js:412-421 | the GET handler's record: `calorias` equals `calorias_total`, which is `parseFloat(calorias_total) \|\| 0`; items, id, date, type and timestamp as listed |
| Server.FormatMeals | server/server.js:412 | one formatted record per listed meal, in order |
| Server.FormatKeepsServerCalories | server/server.js:412-421 | formatting a meal does not change what the weekly report counts for it |
| Server.FormatKeepsServerDay | server/server.js:412-421 | formatting a day's meals does not change the report's day total |
| Server.PagesAgreeWithReport | server/server.js:526-534 | the total the pages compute from `GET /api/refeicoes` equals the weekly report's total for that day |
| Server.ListedItemsWorth | server/database/repositories/refeicoes.js:27 | stored items are worth what the body's items were worth with `\|\| 0` |
| Server.SavedMealCoherent | server/server.js:366-393 | a meal saved with a falsy `calorias_total`, or in the legacy shape, is listed with a stored total equal to what the weekly report counts for it |
| Server.ReportsLength | server/server.js:525-549 | the report has one record per day |
| Server.ReportsAt | server/server.js:525-549 | record `k` is the evaluation of day `k` |
| Server.Week | server/server.js:513-523 | the report's days are the 7 days from this week's Monday |
| Server.ReportDays | server/server.js:525-549 | the mapped days, evaluated in order, are the report of those days |
| Server.InitialStores | server/server.js:247-248 | a fresh database: every store empty and valid, except the foods, which hold the seed list once seeded |
| Server.Api.constructor | server/server.js:36-47 | a new API holds five fresh, valid stores, the foods seeded from the given list |
| Server.Api.PostRefeicao | server/server.js:355-400 | the user is created when missing; the normalised meal is stored; its id is returned |
| Server.Api.GetRefeicoes | server/server.js:403-428 | the given date's meals, or today's, formatted, each with `calorias` equal to `calorias_total` |
| Server.Api.DeleteRefeicao | server/server.js:431-446 | the meal rows become those the delete keeps; success exactly when the meal belonged to the device, and otherwise 404 with nothing removed |
| Server.Api.PostAgua | server/server.js:449-469 | the user is created when missing; `parseInt(quantidade)` is stored on the given date or today and its id returned; under the integer-column reading of the database, an amount that does not parse stores nothing and gives the handler's error |
| Server.Api.DeleteAgua | server/server.js:488-503 | the rows become those the delete keeps; success exactly when the record belonged to the device, and otherwise 404 with nothing removed |
| Server.Api.WeeklyReport | server/server.js:506-556 | the goals row is read and created lazily; the result is the report of this week's 7 days against the stored goals |
| Server.Api.PostPerfil | server/server.js:575-617 | a rejected body gives the validation's message and changes nothing; an accepted one creates the user; then a parsable age upserts the parsed profile and returns it, while an age that does not parse stores no profile and gives the internal error (integer-column reading); a returned profile always has an age |
| Server.Api.PostAlimento | server/server.js:643-665 | refused exactly when the name is already present up to case, with nothing stored; otherwise the food is stored with `categoria \|\| 'Outros'` and `unidade \|\| 'g'`, and its id returned |
| Server.Api.GetMetas | server/server.js:671-680 | the goals row is read and created lazily; a 0 goal is shown as 1600 or 4000 |
| Server.Api.PostMetas | server/server.js:683-701 | the user is created when missing; the given goals are updated with COALESCE after `parseInt`, omitted ones kept; under the integer-column reading of the database, a goal that does not parse is refused and no goal changes |
| Server.PostedGoalsAreRead | server/server.js:671-701 | once both goals are posted, the stored goals are exactly the posted ones, and `GET /api/metas` shows them (a posted 0 shows the default) |
| Server.GoalsReadBeforeUserGivesTwoRows | server/database/repositories/usuarios.js:8-39 | reading the goals before the user exists leaves two goals rows for the device once the user is created |
| Server.ReportDay | server/server.js:525-548 | no contract of its own: one day's report from that day's listed meals and water total; `ReportsAt` states that the `k`-th report is this |
| Server.Reports | server/server.js:525-549 | no contract of its own: the reports of the days, in order; `ReportsLength`, `ReportsAt` and `ReportDays` state its properties |
| MealsPage.PageSummary | src/components/Refeicoes.jsx:247-263 | the page's total is the shared daily total, with the status and the remainder at the goal 1600 |
| MealsPage.SummaryMatchesReport | src/components/Refeicoes.jsx:247-253 | for a day loaded from the server, the page's total equals the weekly report's total for that day |
| MealsPage.ItemsIn | src/components/Refeicoes.jsx:208 | the form's items are posted one for one, in order |
| MealsPage.ServerSumIsFormTotal | src/components/Refeicoes.jsx:203 | the server's `\|\| 0` item sum of the posted items is the form's total |
| MealsPage.SavedTotalIsFormTotal | src/components/Refeicoes.jsx:201-210 | a saved meal is stored with the form's items and the form's total |
| MealsPage.SavedMealCountsAtItsTotal | src/components/Refeicoes.jsx:201-210 | once stored and listed, a meal saved from the form is counted by the weekly report at exactly its stored total, which is the form's total |
| MealsPage.Filtered | src/components/Refeicoes.jsx:269-271 | the dropdown: the loaded foods whose lowered name contains the lowered term, as a prefix of all matches: all of them when there are at most 10, exactly the first 10 otherwise |
| MealsPage.DropdownShowsServerResults | src/components/Refeicoes.jsx:269-271 | for a non-empty term the foods the server sends all match it, so the dropdown shows their first 10 |
| MealsPage.MealForm.constructor | src/components/Refeicoes.jsx:12-27 | the form starts as 'café da manhã' with no items, an empty item entry and an empty search |
| MealsPage.MealForm.AddItem | src/components/Refeicoes.jsx:119-161 | refused without a food and a quantity, or when the calorie fetch fails, changing nothing; accepted whenever a food and a quantity are given and the calories are known or fetched. An accepted item, with its fetched or entered calories, goes at the end, earlier items are kept, and the entry is cleared |
| MealsPage.MealForm.RemoveItem | src/components/Refeicoes.jsx:164-169 | the items become those without that id, in order; nothing else changes |
| MealsPage.MealForm.SaveMeal | src/components/Refeicoes.jsx:172-219 | a fast is posted with no items and total 0; another meal type without items is refused with nothing posted and nothing changed; otherwise it is posted with its items and their total. The form is reset exactly when the post and the reload complete; a failed post gives the fast or meal error message and leaves the form as it was |
| MealsPage.MealForm.HandleSearch | src/components/Refeicoes.jsx:60-67 | the term is kept; a term of two or more characters is fetched, the empty term reloads everything, one character does nothing |
| MealsPage.RemoveKeepsOthers | src/components/Refeicoes.jsx:167 | removing drops exactly the items with that id and never adds one |
| MealsPage.AddThenRemove | src/components/Refeicoes.jsx:147-169 | adding an item and then removing its id gives the earlier items without that id |
| MealsPage.CanAdd | src/components/Refeicoes.jsx:120 | no contract of its own: a food chosen and a quantity typed; `MealForm.AddItem` succeeds exactly when it holds and the calories are known |
| MealsPage.FormTotal | src/components/Refeicoes.jsx:203 | no contract of its own: the form's unguarded item sum; `ServerSumIsFormTotal` and `SavedTotalIsFormTotal` tie it to what the server stores |
| MealsPage.MealBodyOf | src/components/Refeicoes.jsx:205-210 | no contract of its own: the body posted for a meal; `SavedTotalIsFormTotal` and `SavedMealCountsAtItsTotal` state what the server makes of it |
| MealsPage.FastBody | src/components/Refeicoes.jsx:176-182 | no contract of its own: the body posted for a fast, no items and total 0; `MealForm.SaveMeal` posts it for 'jejum' |
| DashboardPage.DayOverview | src/components/Dashboard.jsx:53-77 | the cards show the shared day total and the meal count; the status is the day status of that total; water missing is 4000 minus the total, clamped at 0; over the goal 1600 exactly when the status is 'acima' and exactly when the excess is positive; remaining and excess are never both positive and differ by 1600 minus the total |
| DashboardPage.TypeCounts | src/components/Dashboard.jsx:181-182 | one count for each of the four listed types, none above the number of meals |
| DashboardPage.CountIsFilterLength | src/components/Dashboard.jsx:182 | the recursive count of a type is the length of `refeicoes.filter(r => r.tipo === tipo)` |
| DashboardPage.TiposDistinct | src/components/Dashboard.jsx:181 | the four listed types are distinct |
| DashboardPage.CountsBoundedByTotal | src/components/Dashboard.jsx:181-182 | the four counts add up to at most the meal count, and to exactly it when every meal has one of the four types |
| DashboardPage.WarningFlag.constructor | src/components/Dashboard.jsx:13 | the warning starts closed, over the keys already stored |
| DashboardPage.WarningFlag.Effect | src/components/Dashboard.jsx:91-101 | the warning opens exactly when over the goal, not yet shown today and not open; opening stores today's key; it opens at most once a day |
| DashboardPage.WarningFlag.Close | src/components/Dashboard.jsx:84-88 | closing hides the modal and stores today's key, keeping the once-a-day invariant |
| WaterPage.WaterSummary | src/components/Agua.jsx:63-94 | water missing is 4000 minus the total when positive and 0 once the goal is met; the bar is full at the goal and below 100% before it |
| WaterPage.AddingLowersFalta | src/components/Agua.jsx:33-64 | adding a positive amount never raises the missing water, lowers it while the goal is unmet, and keeps a met goal met |
| WaterPage.HandleCustomAdd | src/components/Agua.jsx:43-49 | an amount is sent exactly when `parseInt` gives a positive number, which is what is sent, and then the field is cleared; otherwise the field is kept |
| WaterPage.CustomAddExamples | src/components/Agua.jsx:43-49 | "250" sends 250 and clears the field; the empty field sends nothing |
| WaterPage.CustomAddRaisesTotal | src/components/Agua.jsx:33-49 | after a custom amount is stored, the reloaded day total grows by exactly that amount and the missing water does not grow |
| WaterPage.Listed | src/components/Agua.jsx:133-135 | the entries are shown newest first and are a permutation of the loaded ones |
| WaterPage.ListedInServerOrder | src/components/Agua.jsx:133-135 | for a day the server listed, the page keeps the server's order unchanged |
| GoalsPage.InputValue | src/components/AjustarMetas.jsx:42-50 | an input gives its parsed number when that is not negative, and 0 for a negative number or text that is not a number |
| GoalsPage.InputValueExamples | src/components/AjustarMetas.jsx:42-50 | "250" gives 250; "abc" and "" give 0 |
| GoalsPage.Preset | src/components/AjustarMetas.jsx:53-58 | the four preset pairs, and no pair for any other name |
| GoalsPage.GoalsEditor.constructor | src/components/AjustarMetas.jsx:8 | the page starts at 1600 kcal and 4000 ml |
| GoalsPage.GoalsEditor.Load | src/components/AjustarMetas.jsx:16-27 | fetched goals replace the shown ones; a failed fetch keeps them |
| GoalsPage.GoalsEditor.CaloriasChange | src/components/AjustarMetas.jsx:42-45 | only the calorie goal changes, to the clamped input |
| GoalsPage.GoalsEditor.AguaChange | src/components/AjustarMetas.jsx:47-50 | only the water goal changes, to the clamped input |
| GoalsPage.GoalsEditor.AplicarPreset | src/components/AjustarMetas.jsx:52-60 | a known preset sets both goals; an unknown name changes nothing |
| GoalsPage.GoalsEditor.AguaPreset | src/components/AjustarMetas.jsx:171-182 | a water button changes only the water goal, to 2000, 3000, 4000 or 5000 |
| GoalsPage.WholeNumberParses | server/server.js:692-693 | a whole number sent as JSON parses back to itself |
| GoalsPage.SavedGoalsReadBack | src/components/AjustarMetas.jsx:29-40 | saved goals are stored unchanged and read back by the calorie engine unchanged, except that a saved 0 is read as 1600 kcal or 4000 ml |
| GoalsPage.PresetsReadBack | src/components/AjustarMetas.jsx:52-60 | a saved preset is the goal pair the server then judges days by |
| CalendarPage.GetDayData | src/components/CalendarioHistorico.jsx:60-73 | a date without meals reads as 0 meals and 0 kcal, otherwise as the count and the shared day total; water is the loaded total, or 0 |
| CalendarPage.Loaded | src/components/CalendarioHistorico.jsx:27-44 | after loading a date it is in both dictionaries; a failed fetch reads as no meals or no water; a successful one as what was fetched; other dates are unchanged |
| CalendarPage.CellMatchesReport | src/components/CalendarioHistorico.jsx:60-73 | a date loaded from the server shows the weekly report's meal count, calorie total and water total for that day |
| CalendarPage.CellIndicators | src/components/CalendarioHistorico.jsx:119-133 | the day is marked exactly when it has meals; the calorie and water markers show only on such days, and only for positive totals |
| CalendarPage.WaterOnlyDayUnmarked | src/components/CalendarioHistorico.jsx:123-133 | a day with water but no meals has no marker at all |
| CalendarPage.Lines | src/components/CalendarioHistorico.jsx:157-167 | one line per meal, in order |
| CalendarPage.DayDetails | src/components/CalendarioHistorico.jsx:144-181 | "no records" exactly when the day has no meals and no water; otherwise the meal lines, plus the water section exactly when the water total is positive |
| CalendarPage.LinesAddUpToCell | src/components/CalendarioHistorico.jsx:158-160 | when every item has calories, the panel's lines add up to the cell's total |
| CalendarPage.ServerDayLinesAddUp | src/components/CalendarioHistorico.jsx:158-160 | for a day the server lists, the lines never give NaN and add up to the cell's total |
| WeeklyReportPage.ServerReportsConsistent | server/server.js:536-538 | every day record the server reports has "both" met exactly when calories and water are met |
| WeeklyReportPage.SumCaloriasBounds | src/components/RelatorioSemanal.jsx:40-42 | with every day's total between two bounds, the sum lies between the count times each bound |
| WeeklyReportPage.MediaWithinBounds | src/components/RelatorioSemanal.jsx:40-42 | the mean calories of a non-empty week lie between any bounds every day lies between |
| WeeklyReportPage.SumAguaNonNegative | src/components/RelatorioSemanal.jsx:44-46 | with no negative day total the water sum is not negative |
| WeeklyReportPage.MediaAguaNonNegative | src/components/RelatorioSemanal.jsx:44-46 | with no negative day total the mean water is not negative |
| WeeklyReportPage.DiasBateu | src/components/RelatorioSemanal.jsx:48-50 | a count of days never exceeds the number of days |
| WeeklyReportPage.FilterHead | src/components/RelatorioSemanal.jsx:48-50 | the count is the first day's share plus the count of the rest |
| WeeklyReportPage.MetCountsConsistent | src/components/RelatorioSemanal.jsx:48-50 | on a consistent report the days meeting both goals are at most those meeting each, and calories plus water minus both is at most the number of days |
| WeeklyReportPage.ChartData | src/components/RelatorioSemanal.jsx:58-64 | one chart point per day record, in the same order, water in litres |
| WeeklyReportPage.ChartKeepsDayOrder | src/components/RelatorioSemanal.jsx:58-64 | days in increasing order give chart points in increasing order |
| WeeklyReportPage.Badges | src/components/RelatorioSemanal.jsx:157-165 | ✅ exactly when both goals are met; otherwise 🔥 for calories, 💧 for water, and ⚠️ exactly when neither is met |
| WeeklyReportPage.OneBadge | src/components/RelatorioSemanal.jsx:157-165 | a consistent record shows exactly one badge |
| WeeklyReportPage.MetasShown | src/components/RelatorioSemanal.jsx:11-28 | the fetched goals are drawn, or 1600 / 4000 when the fetch fails |
| WeeklyReportPage.GoalLineMatchesFlags | src/components/RelatorioSemanal.jsx:37-64 | with fetched goals, each day's flags agree with the drawn goal lines; after a failed fetch the calorie line agrees only for a device with the default calorie goal |
| AchievementsPage.Rank | src/components/Conquistas.jsx:7-16 | each achievement has a position in the page's list of eight, and sits at it |
| AchievementsPage.RankInjective | src/components/Conquistas.jsx:7-16 | two achievements at the same position are the same |
| AchievementsPage.TrailingStreak | src/components/Conquistas.jsx:56-63 | the length of the longest run at the end of the report in which every day met both goals: all of its days did, and the day before it did not |
| AchievementsPage.Streak | src/components/Conquistas.jsx:56-63 | the backwards loop counts exactly that trailing run |
| AchievementsPage.EmptyDayMissesBoth | server/server.js:536-538 | a day with no meals never meets both goals, whatever the goals |
| AchievementsPage.WeekStreakZeroUntilSunday | src/components/Conquistas.jsx:56-63 | while the week's Sunday has no meals, the streak read off the report is 0 |
| AchievementsPage.StreakUntil | src/components/Conquistas.jsx:56-63 | the streak of the days up to today is at most the number of those days |
| AchievementsPage.StreakCorrected | src/components/Conquistas.jsx:56-63 | the loop started at today's record counts the run ending today |
| AchievementsPage.StreakCountsRunEndingToday | src/components/Conquistas.jsx:56-63 | the corrected streak is at least any run of met days ending today, and the days after today do not change it |
| AchievementsPage.DiasComDados | src/components/Conquistas.jsx:38 | the count of days with calories or water is at most the number of days |
| AchievementsPage.SemanaCompletaNeedsEveryDay | src/components/Conquistas.jsx:38-53 | on a seven-day report, "Semana Completa" unlocks exactly when every day has calories or water |
| AchievementsPage.EarnedMeaning | src/components/Conquistas.jsx:48-67 | the goal achievements unlock exactly when some day met that goal; a longer streak implies the shorter ones; 30 days need a report of at least 30 days |
| AchievementsPage.PushIf | src/components/Conquistas.jsx:45-67 | a conditional push adds the achievement at the end exactly when the condition holds |
| AchievementsPage.PushOrdered | src/components/Conquistas.jsx:45-67 | pushing after lower-ranked achievements keeps the list in rank order |
| AchievementsPage.PushMember | src/components/Conquistas.jsx:45-67 | after the push, an achievement up to the pushed rank is listed exactly when it is earned |
| AchievementsPage.PushStep | src/components/Conquistas.jsx:45-67 | each push keeps the list being exactly the earned achievements up to that rank, in rank order |
| AchievementsPage.Push | src/components/Conquistas.jsx:45-67 | one push keeps the earlier list as a prefix, grows it by one exactly when the rule holds, and keeps the shape above |
| AchievementsPage.DesbloquearRegistros | src/components/Conquistas.jsx:43-53 | the first five pushes list exactly the earned achievements among the first five |
| AchievementsPage.Desbloquear | src/components/Conquistas.jsx:43-67 | the unlocked list is in the page's order with no achievement twice, and holds an achievement exactly when its rule holds |
| AchievementsPage.FilterNonEmpty | src/components/Conquistas.jsx:48-52 | a filtered report is non-empty exactly when some day passes |
| AchievementsPage.LoadConquistas | src/components/Conquistas.jsx:27-69 | the cards count the fetched meals, water records and days with data, a failed fetch counting as empty; every achievement unlocks exactly under its rule; after a failed report only the first two can unlock |
| AchievementsPage.Streak30NeverOnWeek | src/components/Conquistas.jsx:67 | with the server's seven-day report the streak never reaches 30, so "Mestre da Dieta" never unlocks |
| CsvExport.DoubleQuotes | src/utils/export.js:16 | doubling the quotes never shortens a string and keeps the same set of characters |
| CsvExport.Field | src/utils/export.js:13-19 | a string with ',' or '"' is quoted with its quotes doubled; any other string, and any other value, is emitted as it is |
| CsvExport.FieldNewlines | src/utils/export.js:15-18 | a field contains a line break exactly when its value does; escaping adds none |
| CsvExport.NewlineNotQuoted | src/utils/export.js:15-18 | a string with a line break but no ',' or '"' is emitted unquoted |
| CsvExport.Keys | src/utils/export.js:9 | the header fields are the first record's keys, in order |
| CsvExport.Fields | src/utils/export.js:12-19 | one field per value, in the record's order |
| CsvExport.Lines | src/utils/export.js:9-23 | the header of the first record's keys, then one row per record in input order |
| CsvExport.ExportToCSV | src/utils/export.js:3-23 | fails with "Nenhum dado para exportar" exactly when there is no data or it is empty; otherwise the lines joined by '\n' |
| CsvExport.Unquote | src/utils/export.js:16 | reading a quoted field consumes at least its closing quote |
| CsvExport.UnquoteEscaped | src/utils/export.js:16 | reading back an escaped string up to its closing quote gives the string and what follows |
| CsvExport.EscapedCons | src/utils/export.js:16 | escaping a string is escaping its first character then the rest |
| CsvExport.UnquoteStep | src/utils/export.js:16 | reading one escaped character then a readable tail reads that character then the tail |
| CsvExport.UnescapeField | src/utils/export.js:15-17 | a quoted field starts with '"', and dropping the outer quotes and collapsing '""' gives back the original string |
| CsvExport.UntilComma | src/utils/export.js:19 | splits at the first ',' into a comma-free head and a rest starting at the comma |
| CsvExport.UntilCommaSplits | src/utils/export.js:19 | a comma-free head followed by a comma or nothing is split off exactly |
| CsvExport.Texts | src/utils/export.js:13 | the texts of a record's values, in order |
| CsvExport.ParseFirstField | src/utils/export.js:13-19 | an emitted field followed by the rest of a row reads back as its value's text |
| CsvExport.ParseQuotedField | src/utils/export.js:16 | a quoted field followed by the rest of a row reads back as the original string |
| CsvExport.ParsePlainField | src/utils/export.js:18 | an unquoted comma-free field reads back as itself |
| CsvExport.RowCons | src/utils/export.js:19 | a row of several fields is its first field, a comma, and the row of the rest |
| CsvExport.TextsCons | src/utils/export.js:13 | the texts of a record are its first value's text then the rest's |
| CsvExport.RowRoundTrip | src/utils/export.js:12-19 | every row whose values read back reads back, field by field, as the texts of its values, whatever commas and quotes they hold |
| CsvExport.SplitLines | src/utils/export.js:23 | splitting on '\n' gives at least one line |
| CsvExport.SplitLine | src/utils/export.js:23 | a line without a line break joins the first piece of what follows it |
| CsvExport.SplitJoin | src/utils/export.js:23 | lines free of line breaks are recovered by splitting their '\n' join |
| CsvExport.JoinNoNewline | src/utils/export.js:19 | joining fields without line breaks gives a row without one |
| CsvExport.ExportSplitsIntoRows | src/utils/export.js:9-23 | when no key or value holds a line break, splitting the output on '\n' gives back the header and exactly one row per record |
| CsvExport.NewlineSplitsRecord | src/utils/export.js:15-23 | a note "a\nb" is not quoted, so its record spreads over two lines of the output |
| CsvExport.MealRecord | src/utils/export.js:40-51 | the five columns Data, Tipo, Calorias, Itens and Notas; calories from the items (NaN when one has none) or the legacy totals; the items text and the notes as strings |
| CsvExport.ExportRefeicoes | src/utils/export.js:39-55 | fails exactly for no meals; otherwise the export of one record per meal, in order |
| CsvExport.ExportRefeicoesHeader | src/utils/export.js:45-51 | the export of any meals starts with the header "Data,Tipo,Calorias,Itens,Notas" |
| StatisticsPage.LoadDados | src/components/Estatisticas.jsx:58-83 | all the days' meals in one list, day after day, and one calorie entry (the shared day total and the meal count) and one water entry (litres, a missing total read as 0) per day, in the order of the days |
| StatisticsPage.AllMealsAreTheDays | src/components/Estatisticas.jsx:140-145 | the calories of the period's whole meal list are the sum of the per-day entries |
| StatisticsPage.SumCalBounds | src/components/Estatisticas.jsx:140-145 | with every day between two bounds, the period's sum lies between the number of days times each bound |
| StatisticsPage.Dias | src/components/Estatisticas.jsx:148 | the divisor is never 0, and is the number of days when there are any |
| StatisticsPage.MeanOfDays | src/components/Estatisticas.jsx:139-155 | the rounded mean of a period lies between the roundings of any bounds every day lies between |
| StatisticsPage.MediasWithinDailyBounds | src/components/Estatisticas.jsx:139-155 | with every loaded day between two bounds, the mean calories card lies between their roundings; an empty period shows 0 |
| StatisticsPage.TallyAfterAppend | src/components/Estatisticas.jsx:100-111 | counting two lists one after the other counts their concatenation |
| StatisticsPage.TalliedDescribes | src/components/Estatisticas.jsx:97-111 | the dictionary holds exactly the names that occur, each once in key order, with its number of occurrences and its calories |
| StatisticsPage.StepDescribes | src/components/Estatisticas.jsx:102-109 | counting one more item keeps the dictionary describing the items counted |
| StatisticsPage.StepEntries | src/components/Estatisticas.jsx:104-108 | after one more item the entries are exactly the occurring names with their counts and calories |
| StatisticsPage.StepOrder | src/components/Estatisticas.jsx:104-106 | after one more item the key order lists exactly the entries, each once |
| StatisticsPage.CountZeroNoCalories | src/components/Estatisticas.jsx:108 | a name that does not occur has 0 kcal |
| StatisticsPage.Values | src/components/Estatisticas.jsx:113 | the entries in key order |
| StatisticsPage.MoreFrequentTotal | src/components/Estatisticas.jsx:114 | the comparator is a total preorder, so the sort is well defined |
| StatisticsPage.AllItemsSnoc | src/components/Estatisticas.jsx:100-102 | the items of one more meal are the earlier items followed by that meal's |
| StatisticsPage.CountItems | src/components/Estatisticas.jsx:102-109 | the inner loop counts the meal's items into the dictionary |
| StatisticsPage.AlimentosMaisConsumidos | src/components/Estatisticas.jsx:97-116 | the loops compute the top ten of all the items of all the meals |
| StatisticsPage.TopTenShape | src/components/Estatisticas.jsx:113-115 | at most ten foods, most eaten first |
| StatisticsPage.TopTenEntry | src/components/Estatisticas.jsx:104-115 | each food shown occurs, with its true count and its calories |
| StatisticsPage.TopTenComplete | src/components/Estatisticas.jsx:113-115 | a food that occurs but is not shown means ten foods are shown, each eaten at least as often |
| StatisticsPage.CountByKeys | src/components/Estatisticas.jsx:120-133 | the dictionary loop counts, for each key, the meals of exactly that type |
| StatisticsPage.NomesAreKeys | src/components/Estatisticas.jsx:120-126 | the five capitalised keys and the five stored types are distinct, empty-free and not 'Outro', and no key is a stored type |
| StatisticsPage.Labelled | src/components/Estatisticas.jsx:135 | one `{ nome, valor }` per key, in key order |
| StatisticsPage.HorariosPreferidos | src/components/Estatisticas.jsx:119-136 | as written: five entries in key order, each the number of meals whose type is exactly that capitalised key |
| StatisticsPage.SumValoresIsSumCounts | src/components/Estatisticas.jsx:135 | the entries' values add up to the sum of the per-key counts |
| StatisticsPage.HorariosBounded | src/components/Estatisticas.jsx:128-133 | as written the counts add up to at most the number of meals |
| StatisticsPage.HorariosMissStoredTypes | src/components/Estatisticas.jsx:120-133 | as written, meals saved by the meal form are never counted: every entry is 0 |
| StatisticsPage.HorariosPreferidosCorrected | src/components/Estatisticas.jsx:119-136 | corrected: each label counts the meals of the matching stored type |
| StatisticsPage.HorariosCountEverySavedMeal | src/components/Estatisticas.jsx:119-136 | corrected, every meal saved by the form is counted exactly once |
| StatisticsPage.WeekCount | src/components/Estatisticas.jsx:165-166 | at most four weeks, at least one for any data, and each week starts inside the data |
| StatisticsPage.WeekEnd | src/components/Estatisticas.jsx:167-168 | a week ends after its start, within the data, at most seven days later |
| StatisticsPage.WeekAgua | src/components/Estatisticas.jsx:173-177 | the inner loop adds up the week's water |
| StatisticsPage.WeekCal | src/components/Estatisticas.jsx:170-177 | the corrected inner loop adds up the week's calories |
| StatisticsPage.ComparacaoSemanas | src/components/Estatisticas.jsx:158-188 | as written: no weeks unless the period is three months and there is data; otherwise up to four weeks with their mean water and always 0 kcal |
| StatisticsPage.ComparacaoSemanasCorrected | src/components/Estatisticas.jsx:158-188 | corrected: the same weeks, each with its rounded mean calories as well |
| StatisticsPage.WeekMeanWithinBounds | src/components/Estatisticas.jsx:181 | corrected, a week's mean lies between the roundings of any bounds its days lie between |
| StatisticsPage.WeekCaloriesLost | src/components/Estatisticas.jsx:170-181 | a week where every day has at least 1 kcal shows a positive mean once corrected, where as written it shows 0 |
| StatisticsPage.CalcularMedias | src/components/Estatisticas.jsx:139-155 | no contract of its own: the three daily averages; `MeanOfDays` and `MediasWithinDailyBounds` bound the calorie average by the lowest and highest day |
| StatisticsPage.Tallied | src/components/Estatisticas.jsx:97-111 | no contract of its own: the per-name counts; `TalliedDescribes` states that each entry counts its name's items and their calories |
| StatisticsPage.TopTen | src/components/Estatisticas.jsx:113-115 | no contract of its own: the entries by descending count, first 10; `TopTenShape`, `TopTenEntry` and `TopTenComplete` state its properties |

## Left out

- HTTP plumbing (routing, CORS, status codes, reading the device id from the header, `app.listen`): each handler is an `Api` method over the stores, with the error body as a `Result` error. The device id is a parameter.
- Database start-up (the Postgres pool, query logging, schema creation in `server/database/db.js`, the `dbInitialized` gate) and `server/database/migrate.js`: these are I/O and one-time set-up. The migration's legacy-meal conversion repeats `POST /api/refeicoes`, which `CalorieEngine.NormalizeMeal` models.
- The contents of the food list seeded on start-up (server/server.js:51-245): data, not logic. The list is a parameter of `Server.Api.constructor`, and `FoodRepository.FoodStore.InitializeAlimentos` is proved for any list.
- The schema file is not part of this model. So no uniqueness or foreign-key constraint is assumed on the users, goals and streaks tables. Only the profile table's `ON CONFLICT (device_id)` is kept, as an invariant.
- JavaScript `Date`, date-fns and time zones: days are day numbers and "today" is a parameter. The month and three-month ranges of the statistics and calendar pages are given as lists of day numbers.
- IEEE floating point: calories are exact reals, so rounding differences of binary floats are not captured. `toFixed` and the other number and date renderings are left out, or taken as parameters in the CSV export, and so is the exponent notation `String(x)` gives a number below 1e-6 or from 1e21 up in magnitude, which `parseInt` of a number reads (1e21 parses as 1).
- Server.Api.PostAgua, Server.Api.PostMetas, Server.Api.PostPerfil: the schema is not part of this model, so the model reads every column the server fills through `parseInt` (water amount, both goals, age) as an integer column. PostgreSQL rejects `NaN` for such a column, so the query throws and the handler answers its error after the user has been created. Columns filled through `parseFloat` (height, weight, calorie values) are read as numeric columns, which store `NaN`; the model keeps it as a missing number.
- CalorieEngine.ActivityFactor, StatisticsPage.Tallied: the model's dictionaries hold only their own keys. A JavaScript object lookup also sees keys inherited from `Object.prototype`, such as `constructor` or `toString`. So an activity level named `constructor` gives a function instead of 1.2, and the goal becomes `NaN`. A food named `constructor` is never tallied by the page, but the model counts it.
- `Promise.all` and concurrency: the parallel fetches are an order-preserving sequence of results.
- Failure atomicity: the meal row and its item rows are inserted without a transaction. A failure half-way is not modelled; a store operation either happens completely or not at all.
- SQL `LIKE` wildcards: `%` and `_` typed into a food search act as wildcards in the source. The model treats the term as a plain substring.
- Collation: `LOWER` changes only the ASCII letters A-Z, and `ORDER BY nome` is character order. Unicode case mapping and database collations are not modelled.
- Timestamp ties: every insert gets a strictly larger logical timestamp, so two records written in the same instant are not modelled. Their relative order in `ORDER BY timestamp DESC` is left unspecified by the source.
- Text.ParseInt, Text.ParseFloat: the text "Infinity" (read by `parseFloat` as an infinite number) is read as `NaN`, because numbers are reals with no infinity; for the same reason the model's values are exact, where JavaScript rounds a long digit string or a large exponent to the nearest float or to infinity.
- Object key order: records are sequences of key/value pairs in insertion order, as JavaScript gives for string keys.
- StatisticsPage.TopTenShape: the order among foods eaten equally often is not stated. It depends on the dictionary's key order and on the sort's stability, and only "most eaten first" is proved.
- The browser side: `src/utils/api.js` (fetch), notifications, the device id in `localStorage`, the theme, the toasts, `window.confirm`, the focus listeners and the 30-second refresh timer.
- The UI-only files (`ExportarDados.jsx`, `Navbar.jsx`, `LoadingSpinner.jsx`, `SwipeableItem.jsx`, `App.jsx`, `main.jsx`), and the sharing texts of `CompartilharProgresso.jsx` and `TextoPreview.jsx` (clipboard, share and canvas code around percentage displays).
- The download tail of `exportToCSV` (the Blob, the anchor element and the click, src/utils/export.js:26-36), and `exportAguaToCSV`, which only maps water records onto `exportToCSV`.
- The meal form's food-selection and quantity-change handlers (src/components/Refeicoes.jsx:69-116): they only fill the entry fields that `MealsPage.MealForm.AddItem` reads, and the model takes those fields as they are.
- The calendar's month navigation and cell layout (src/components/CalendarioHistorico.jsx:56-58, 75-81, 102-110): day numbers of the month are the input.
- A behaviour recorded rather than corrected: reading the goals before the user exists leaves two goals rows for the device, because `getOrCreateUsuario` inserts its default row without looking at the goals table (`Server.GoalsReadBeforeUserGivesTwoRows`). Which row a later `SELECT ... LIMIT 1` returns is then up to the database; the model reads the first one inserted.
- A behaviour recorded rather than corrected: profile validation accepts an age of 0, which the goal endpoint then treats as missing (`CalorieEngine.ZeroAgeAcceptedButIgnored`).
- A deviation from rule 6 of section 2 of RFC 4180, recorded rather than corrected: a string holding a line break but no ',' or '"' is written unquoted, so its record spreads over two lines (`CsvExport.NewlineNotQuoted`, `CsvExport.NewlineSplitsRecord`).
- A behaviour recorded rather than corrected: on the calendar, a day with water but no meals shows no marker, because all markers sit inside the meal-count block (`CalendarPage.WaterOnlyDayUnmarked`).

## Findings

| source | as written | input that shows it | evidently intended | confidence | as-written member | corrected member |
|---|---|---|---|---|---|---|
| src/components/Estatisticas.jsx:120-133 | the counts are keyed by capitalised names ('Café da Manhã', 'Almoço', ...), while the meal form stores lower-case types ('café da manhã', 'almoço', ...), so no stored meal matches a key | any list of meals saved by the form, e.g. one meal of type 'almoço': every entry of "Horários preferidos" is 0 | each label counts the meals of the matching stored type | high (not executed) | StatisticsPage.HorariosPreferidos, StatisticsPage.HorariosMissStoredTypes | StatisticsPage.HorariosPreferidosCorrected, StatisticsPage.HorariosCountEverySavedMeal |
| src/components/Estatisticas.jsx:170-181 | `totalCal` is set to 0 and never added to, so every week of the comparison shows 0 kcal | a three-month period whose first week has 2000 kcal on each day: week 1 shows 0 kcal | each week shows its rounded mean daily calories | high (not executed) | StatisticsPage.ComparacaoSemanas, StatisticsPage.WeekCaloriesLost | StatisticsPage.ComparacaoSemanasCorrected, StatisticsPage.WeekMeanWithinBounds |
| src/components/Conquistas.jsx:56-63 | the streak is counted back from the last record of the weekly report, which is this week's Sunday, not today | any day before Sunday, with the earlier days of the week all meeting both goals and nothing logged yet on Sunday: the streak is 0 | the streak counts the run of days ending today | medium (not executed) | AchievementsPage.Streak, AchievementsPage.WeekStreakZeroUntilSunday | AchievementsPage.StreakCorrected, AchievementsPage.StreakCountsRunEndingToday |
