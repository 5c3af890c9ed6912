# Eco-score quiz and image-identify handler, modelled in Dafny

This project models the logic of a small sustainability web app. It has two parts.

The browser app (`frontend/src/App.jsx`) runs an eco-score quiz. It scores eight lifestyle answers into water, energy and waste sub-scores and a rounded composite. It awards up to three badges and appends each calculation to a history log. The log can be exported as CSV text.

The backend (`backend/server.js`) serves `POST /identify`. It rejects a request without an image, asks an image labeller for label descriptions, and answers with a name and a description built from them.

Modules, one per concern:

- `Text` (`text.dfy`): JavaScript's `Array.prototype.join` and a one-character `String.prototype.split`, with the lemmas that relate them. It also writes whole numbers in decimal.
- `Scoring` (`scoring.dfy`): the quiz answers, the score specification (`Scores`: tier bonuses added to a base, then clamped) and `ComputeScores`. `ComputeScores` is the imperative calculator. It builds each sub-score in a mutable local, as the page does, and is proved equal to `Scores`.
- `Badges` (`badges.dfy`): the three badge rules and `EarnedBadges`, the method that pushes badges onto a local list. It is proved equal to a reference filter over all badges in page order.
- `Records` (`records.dfy`): the history log as a sequence value, `AppendRecord`, and one Calculate step (scores, new log, confetti flag).
- `CsvExport` (`csv.dfy`): the header, the rows and the exported text, with line and field counts.
- `Identify` (`identify.dfy`): the `/identify` handler. Vision labelling is an input.

Quiz numbers are JavaScript numbers and are modelled as exact reals. The composite uses `Math.round`, which rounds halves upward. The model writes it as `floor(x + 0.5)`.

The `/identify` handler checks only that `image` is truthy (backend/server.js:30). It passes the decoded image straight to label detection (line 33), and its fallback name is `"Unknown"` (line 36).

## Model

| member | source | states |
|---|---|---|
| `Scoring.Round` | frontend/src/App.jsx:147 | `Math.round`: the result is the integer nearest to the input, with halves going up. |
| `Scoring.Clamp` | frontend/src/App.jsx:128 | The result lies in [0, hi]. It equals the input inside that range, 0 below it and hi above it. |
| `Scoring.LedBonus` | frontend/src/App.jsx:130 | The LED bonus is the smaller of 1.5 per bulb and 10: it is at most both and equal to one of them. It is not negative for a non-negative count. |
| `Scoring.Scores` | frontend/src/App.jsx:121-148 | Water and energy lie in [0, 40] and waste in [0, 20]. The eco score is the rounded sum of the three and lies in [0, 100]. |
| `Scoring.ComputeScores` | frontend/src/App.jsx:121-148 | The imperative calculator, with mutable locals, if/else tiers and a `max(0, min(hi, x))` clamp, returns exactly `Scores(inputs)`. |
| `Scoring.WaterLevels` | frontend/src/App.jsx:122-128 | Water is always 20, 30 or 40. It is 20 exactly for showers over 15 minutes without a bucket. It is 40 exactly for showers of at most 10 minutes, or at most 15 with a bucket. A shower of at most 5 minutes alone gives 40. |
| `Scoring.WasteLevels` | frontend/src/App.jsx:139-145 | Waste is always 5, 10, 15 or 20. It is 5 exactly with no reusables, no recycling and more than 3 disposables. |
| `Scoring.EnergyCeiling` | frontend/src/App.jsx:130-137 | Energy before the clamp is at most 45, and at most 35 without the LED bonus. The clamped energy is 40 exactly when the raw value reaches 40. |
| `Scoring.SubScoresIndependent` | frontend/src/App.jsx:121-147 | Water depends only on the shower time and the bucket. Energy depends only on the LEDs, device hours and AC hours. Waste depends only on reusables, recycling and disposables. The name plays no part. |
| `Scoring.ScoresMonotone` | frontend/src/App.jsx:121-147 | Answers that are at least as green on every question never give a lower sub-score or eco score. |
| `Scoring.BestAnswers` | frontend/src/App.jsx:121-147 | Shower 5, bucket, devices 3, 5 LEDs, AC 2, 1 disposable, reusables and recycling give 40/40/20 and eco 100. |
| `Scoring.PoorAnswers` | frontend/src/App.jsx:121-147 | Any answers in the worst tier of every question with no LED bulbs (shower over 15 minutes without a bucket, devices over 6 hours, AC over 5 hours, more than 3 disposables, no reusables, no recycling) give 20/10/5 and eco 35. |
| `Scoring.RoundWhole` | frontend/src/App.jsx:147 | `Math.round` leaves a whole number unchanged. |
| `Scoring.DefaultScores` | frontend/src/App.jsx:51 | The initial form, which Reset at line 347 restores, scores 40/37.5/10 and eco 88. |
| `Badges.EarnedBadges` | frontend/src/App.jsx:168-172 | The pushed list equals the reference filter. It holds a badge exactly when that badge's rule holds, lists badges in strictly increasing page order and has at most three. |
| `Badges.Earned` | frontend/src/App.jsx:169-172 | Filtering never yields more badges than there were candidates. |
| `Badges.EarnedAll` | frontend/src/App.jsx:169-172 | The filter over all three badges checks the Water Saver, Energy Ninja and Waste Warrior rules in that order, keeping each badge whose rule holds. |
| `Badges.EarnedMembers` | frontend/src/App.jsx:169-172 | A badge is in the filtered list exactly when it is a candidate and its rule holds. |
| `Badges.EarnedRanked` | frontend/src/App.jsx:169-172 | Filtering a list ordered by page position keeps it ordered. |
| `Badges.EarnedBadgesShape` | frontend/src/App.jsx:169-172 | Over all three badges, the filter gives exactly the earned badges, in page order, at most three. |
| `Badges.RankedListIsShort` | frontend/src/App.jsx:169-172 | Any list in strictly increasing page order has each badge at or after its own position, so it has at most three entries. |
| `Badges.WaterSaverScore` | frontend/src/App.jsx:170 | A Water Saver has full water marks (40). |
| `Badges.EnergyNinjaScore` | frontend/src/App.jsx:171 | An Energy Ninja with a non-negative LED count has at least 35 energy. |
| `Badges.EnergyNinjaWithNegativeBulbs` | frontend/src/App.jsx:130-137 | With -10 LEDs an Energy Ninja has only 20 energy, so the bound above needs a non-negative count. |
| `Badges.WasteWarriorScore` | frontend/src/App.jsx:172 | A Waste Warrior has at least 15 waste points. |
| `Badges.DefaultEarnsNothing` | frontend/src/App.jsx:51 | The initial form earns no badge. |
| `Records.AppendRecord` | frontend/src/App.jsx:153 | The new log is one longer. Its prefix is the old log, unchanged, and its last entry is the new record. |
| `Records.DisplayName` | frontend/src/App.jsx:153 | The stored name is never empty. It is the typed name when one was given, otherwise `-`. |
| `Records.Calculate` | frontend/src/App.jsx:150-158 | The shown scores are `Scores(inputs)`. The confetti fires exactly when eco is at least 100. |
| `Records.CalculateAppendsOne` | frontend/src/App.jsx:151-154 | Calculate adds exactly one record, at the end, holding the time, the display name, the answers and their scores. Earlier records are kept. |
| `Records.CalculationsExtendLog` | frontend/src/App.jsx:153-154 | After any series of calculations the log has grown by one record per calculation. The old log is still its prefix. |
| `Records.ConfettiThreshold` | frontend/src/App.jsx:155 | The confetti fires exactly when the unrounded total reaches 99.5. That happens exactly with water 40, waste 20 and energy at least 39.5. |
| `Records.ConfettiBelowFullEnergy` | frontend/src/App.jsx:155 | Three LED bulbs give energy 39.5 with full water and waste marks, and the confetti still fires. |
| `CsvExport.BoolText` | frontend/src/App.jsx:187 | A boolean is written `true` or `false`, matching its value. |
| `CsvExport.RowFields` | frontend/src/App.jsx:186-187 | A row has one value per header column, eleven in all. The first is the time, the second the name and the last the eco score in decimal. |
| `CsvExport.RowUnderHeader` | frontend/src/App.jsx:186-187 | Under each header column, a row holds the record's value for the column of that name (`ColumnValue`, a lookup by column name). In order: time, name, shower minutes, bucket, device hours, LEDs, AC hours, reusables, recycling, disposables and the eco score in decimal. |
| `CsvExport.Rows` | frontend/src/App.jsx:187 | There is one row per record, in log order. |
| `CsvExport.PlainFields` | frontend/src/App.jsx:187 | Apart from the time and the name, no value of a row writes a comma or a line break. |
| `CsvExport.RowFieldCount` | frontend/src/App.jsx:187 | A row splits at commas into 11 fields plus one per comma in the time and the name. It has exactly 11 fields if and only if neither holds a comma. |
| `CsvExport.RowSplitsIntoFields` | frontend/src/App.jsx:187 | A row whose time and name hold no comma splits back into exactly its eleven values. |
| `CsvExport.RowIsOneLine` | frontend/src/App.jsx:187 | A row has no line break when its time and name have none. |
| `CsvExport.PlainColumns` | frontend/src/App.jsx:186 | No column name holds a comma or a line break. |
| `CsvExport.HeaderColumns` | frontend/src/App.jsx:186 | The header splits at commas into the eleven column names, in row order. |
| `CsvExport.HeaderIsOneLine` | frontend/src/App.jsx:186 | The header is a single line. |
| `CsvExport.CsvLines` | frontend/src/App.jsx:185-188 | The text splits at line breaks into the header followed by one row per record, in log order: `|records| + 1` lines and no trailing empty line, provided no time or name holds a line break. |
| `CsvExport.LinesAfter` | frontend/src/App.jsx:185-188 | Any line-break-free first line and the rows below it, joined by `\n`, split back into those lines. |
| `CsvExport.EmptyLogCsv` | frontend/src/App.jsx:185-188 | An empty log exports the header alone. |
| `CsvExport.CsvAppend` | frontend/src/App.jsx:185-188 | Appending a record adds `\n` and its row to the end of the text. |
| `CsvExport.RowsAppend` | frontend/src/App.jsx:187-188 | One more record adds a line break and its row at the end, whatever the first line. |
| `CsvExport.CsvAfterCalculate` | frontend/src/App.jsx:150-154 | After a Calculate the export gains exactly the new record's row. |
| `Text.Split` | frontend/src/App.jsx:185-188 | Not an operation of the source, which never splits: the reading side of the CSV text, used to state its line and field structure. Splitting gives one more piece than there are separator occurrences, and no piece holds the separator. |
| `Text.SplitJoin` | frontend/src/App.jsx:185-188 | Joining non-empty parts with a one-character separator and splitting at it gives the parts back, provided no part holds that character. |
| `Text.JoinCons` | frontend/src/App.jsx:187-188 | A join of two or more parts is the first part, the separator and the join of the rest. |
| `Text.JoinSnoc` | frontend/src/App.jsx:187-188 | Joining one more part appends the separator and that part. |
| `Text.JoinLength` | backend/server.js:36 | A join is as long as its parts together plus one separator per neighbouring pair. |
| `Text.JoinStartsWithFirst` | backend/server.js:36 | A join starts with its first part. |
| `Text.JoinCount` | frontend/src/App.jsx:185-188 | A join holds the separator character once per neighbouring pair beyond its parts' own occurrences, and adds none of a character the separator avoids. |
| `Text.JoinAvoids` | frontend/src/App.jsx:185-188 | A character absent from the parts and the separator is absent from the join. |
| `Text.IntText` | frontend/src/App.jsx:187 | A whole number is written as a non-empty string of digits, with a `-` in front exactly when it is negative and nowhere else. |
| `Text.Digit` | frontend/src/App.jsx:187 | A digit below 10 is written as the decimal character whose value it is. |
| `Text.NatTextValue` | frontend/src/App.jsx:187 | Reading the written digits of n back, most significant first, gives n. There is no leading zero. |
| `Text.IntTextValue` | frontend/src/App.jsx:187 | Reading the written text of a whole number back, sign included, gives the number. Its digits have no leading zero. |
| `Identify.HandleIdentify` | backend/server.js:27-41 | Status 400 with "No image provided" exactly for a falsy image. Status 500 with the fixed failure message exactly when labelling fails. Otherwise status 200 with exactly a name and a description built from the labels. |
| `Identify.LabelName` | backend/server.js:36 | The name is the first label when it is non-empty, otherwise "Unknown". It is never empty. |
| `Identify.RejectionIgnoresLabeller` | backend/server.js:30 | For a falsy image the response is the same 400 whatever the labeller would do. |
| `Identify.FalsyImages` | backend/server.js:30 | An empty string, 0, false, null and a missing field are all rejected, and a non-empty string is not. |
| `Identify.DescriptionEmpty` | backend/server.js:34-36 | The description is empty exactly when there are no labels or one empty label. |
| `Identify.NameStartsDescription` | backend/server.js:36 | A non-empty first label is the name and the start of the description. |
| `Identify.DescriptionLists` | backend/server.js:34-36 | When no label holds a comma, the description splits at commas into the first label, then each later label behind one space, in annotation order. |

## Left out

- React rendering, framer-motion animations, the confetti and toast timers, the translated texts and tips, and the random eco fact. These are UI, timers and `Math.random`.
- Reading the file, the base64 conversion and the axios call in the page's identify action. These are browser I/O and network.
- Loading and saving the log in localStorage. The log is a plain sequence value, and records are assumed to have the shape the page writes.
- The Blob, object URL and download click of the export. Only the CSV text is modelled.
- The clock: `new Date().toISOString()` is the `ts` parameter.
- Express, CORS, the body parser, the Vision client and `app.listen`. The whole labelling step (decoding the payload, calling the service, reading `labelAnnotations`) is the `VisionOutcome` input, and any exception it throws is `Failed`.
- Label descriptions are strings. A missing description, which `join` would write as an empty string, is not modelled separately.
- Floating point: answers are exact reals. `NaN` and infinities from `Number(...)` on the form are not modelled. `ac_hours` and `disposable_count` have no form control and keep their defaults.
- How JavaScript writes a non-integer number in a template string. The CSV takes that rendering as a parameter `num`, and the lemmas assume it writes no comma or line break. The eco score is a whole number from 0 to 100 and is written in decimal.
- The CSV header is modelled as the eleven column names joined by commas. This is the same text as the literal on line 186.
- The row template `${ts},${name},...` is modelled as the row's eleven values joined by commas, which is the same string.
- The badges are computed from the live answers (`quizInputs`, lines 170-172), while the score chips show the scores of the last Calculate (`quizScores`, lines 359-361). After an edit without recalculating, a badge can sit beside scores that do not match it. The badge-and-score lemmas relate `Earns(b, i)` to `Scores(i)` for the same answers `i`.
- Badges.EnergyNinjaScore: requires a non-negative LED count, because a negative count, which the number field accepts, lowers the energy below 35.
