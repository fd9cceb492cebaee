# A model of the prayer app's calendar labels, data manager and ritual page

The app shows deities by category. The visitor performs a short ritual and
draws a fortune slip. The app then keeps a history of prayer records. This
project models three parts of it in Dafny and proves properties of them:

- **`LunarCalendar`** (`lunar_calendar.dfy`). It builds the display labels
  for a solar date:
  - the stem-branch year (`GetCyclical`);
  - the zodiac animal;
  - a "lunar" month, which is the solar month shifted back by one with
    wrap-around, and its Chinese name;
  - the solar day written in Chinese (`ToLunarDay`);
  - a handful of fixed solar-term dates (`GetSolarTerm`).

  This part is pure, so it is modelled as functions and lemmas. The
  calendar is a visual approximation, not a lunisolar conversion, and the
  model follows what the code computes.
- **`DataManager`** (`manager.dfy`, with the pure parts in `fortunes.dfy`
  and `prayer_records.dfy`):
  - the merge of the fortune database parts;
  - drawing a slip, and the fallback slip;
  - level colours, poem formatting and per-level slip counts;
  - the prayer-record list: saving with a cap of 100, deleting by id,
    toggling the favourite flag, editing the note, the newest records, and
    the statistics with their first-maximum rule for the most prayed-to
    deity.

  The class keeps the record list in a `seq` field that its methods
  reassign. That field stands for the list stored in the browser.
- **The ritual page** (`ritual.dfy`). The page state is a class with the
  wish, the incense, bow and sutra progress, and the `completed` flag.
  - Each timed action is a start method, which runs when the button is
    pressed, and a finish method, which is the timer callback.
  - Counters record the callbacks that have been scheduled and not yet run.
  - `UpdateProgress` counts the four conditions and latches `completed`.
  - The draw button is gated on `completed`.

`js_core.dfy` holds the JavaScript semantics the model relies on:
- `undefined` as `Option.None`;
- the truncating `%` operator;
- array indexing that yields `undefined` outside the array.

A table entry that JavaScript would read as `undefined`, or turn into junk
text such as `"undefined子"`, is `None` in the model.

The current time, generated ids and `Math.random()` are parameters. The random
value is a real `roll` with `0 <= roll < 1`.

## Model

| member | source | states |
|---|---|---|
| JsCore.JsRem | lunar-calendar.js:90 | JavaScript `%` for a positive divisor: equals Dafny's `%` on non-negative operands, lies in `(-b, 0]` on negative ones and is zero exactly when the divisor divides |
| JsCore.At | lunar-calendar.js:64 | a table lookup is defined exactly for indices inside the table and then yields that entry |
| LunarCalendar.GetCyclical | lunar-calendar.js:88-91 | the year label is defined exactly for years from 1864 on, plus the years before 1864 that are a multiple of 60 away from 1864; when defined it is two characters, a stem and then a branch; from 1864 on, year y gets stem `(y - 1864) % 10` and branch `(y - 1864) % 12` |
| LunarCalendar.CyclicalAnchor | lunar-calendar.js:88-91 | the year 1900 is labelled 庚子 |
| LunarCalendar.CyclicalPeriod | lunar-calendar.js:88-91 | from 1864 on, the label repeats every 60 years |
| LunarCalendar.CyclicalSuccessor | lunar-calendar.js:88-91 | from 1864 on, each year takes the next stem and the next branch of the year before, wrapping at the end of each table |
| LunarCalendar.CyclicalBefore1864 | lunar-calendar.js:88-91 | the only label any year before 1864 can get is 甲子 |
| LunarCalendar.CyclicalInjective | lunar-calendar.js:88-91 | two different years from 1864 on, less than 60 apart, get different labels |
| LunarCalendar.SameLabelSameRemainders | lunar-calendar.js:88-91 | two numbers whose stem-branch labels are equal have the same position in the stem cycle and in the branch cycle |
| LunarCalendar.StemsDistinct | lunar-calendar.js:22 | no two of the ten stems are the same character |
| LunarCalendar.BranchesDistinct | lunar-calendar.js:23 | no two of the twelve branches are the same character |
| LunarCalendar.ZodiacAnimal | lunar-calendar.js:64 | the animal is defined exactly for years from 4 on, plus earlier years that are a multiple of 12 away from year 4; when defined it is one of the twelve animals; from year 4 on, year y gets animal `(y - 4) % 12` |
| LunarCalendar.ZodiacPeriod | lunar-calendar.js:64 | from year 4 on, the animal repeats every 12 years |
| LunarCalendar.ZodiacMatchesBranch | lunar-calendar.js:64 | from 1864 on, the animal is the one in the same position as the branch of the year label |
| LunarCalendar.LunarMonthOf | lunar-calendar.js:52-54 | a month 1..12 is shifted to 1..12: January becomes 12 and every other month m becomes m-1 |
| LunarCalendar.MonthShiftInverse | lunar-calendar.js:52-54 | the shift is undone by adding one month modulo 12, so no two solar months share a lunar month |
| LunarCalendar.MonthLabel | lunar-calendar.js:57 | the month name is the table entry for months 1..12 and 正月 for anything else |
| LunarCalendar.ToLunarDay | lunar-calendar.js:94-105 | the day label is defined exactly for days 0..49 and is then always two characters |
| LunarCalendar.ParseLunarDay | lunar-calendar.js:94-105 | not code of the app: the reading-back of a day label that serves as the inverse in the round-trip lemma; it gives a day number in 0..49 |
| LunarCalendar.DayLabelRoundTrip | lunar-calendar.js:94-105 | for every day 0..49, reading back its label gives the day, so different days get different labels |
| LunarCalendar.DayLabelExamples | lunar-calendar.js:94-105 | 1, 15, 21 and 31 give 初一, 十五, 廿一 and 卅一; 10, 20 and 30 give 初十, 二十 and 三十 |
| LunarCalendar.GetSolarTerm | lunar-calendar.js:73-85 | each of the five term names is returned exactly on its listed dates, for example 冬至 exactly on December 21-23; every date not in the 12-entry table gives the empty string |
| LunarCalendar.TermNamesInTable | lunar-calendar.js:76-82 | every term name returned is one of the 24 solar-term names, or the empty string |
| LunarCalendar.SolarToLunar | lunar-calendar.js:34-70 | year and day pass through unchanged; for months 1..12 the month is in 1..12 and its name matches it (January gives 12 and 腊月); days 1..31 get a two-character label; from 1864 on the year label and the animal are defined; the term is non-empty exactly on the listed dates; the term, year label, animal, day label and month name are those the calendar's own functions give for the date |
| LunarCalendar.SolarToLunarPeriod | lunar-calendar.js:34-70 | from 1864 on, the labels of a date 60 years later differ only in the year number |
| Fortunes.LevelColor | data-manager.js:134-142 | the four known levels get their fixed colours and any other level gets #999999 |
| Fortunes.LevelColorIdentifiesLevel | data-manager.js:134-142 | the known levels never get the fallback colour, and no two known levels share a colour |
| Fortunes.FormatPoem | data-manager.js:145-147 | the result ends with 。; an empty poem gives just 。; otherwise the length is the lines' total length plus two per separator plus one |
| Fortunes.Join | data-manager.js:146 | joining no lines gives the empty string; otherwise the result starts with the first line |
| Fortunes.JoinLength | data-manager.js:146 | a join is as long as its lines plus one separator between each pair |
| Fortunes.JoinLineAt | data-manager.js:146 | in a join with a two-character separator, each line appears at its offset, followed by the separator unless it is the last line |
| Fortunes.JoinFirstLine | data-manager.js:146 | in a join of two or more lines with a two-character separator, the first line is followed by the separator |
| Fortunes.PoemLineAt | data-manager.js:145-147 | each poem line appears in the formatted poem at its offset, followed by a comma and a line break unless it is the last line |
| Fortunes.DefaultFortune | data-manager.js:111-131 | the fallback slip is a 中签 with that level's own colour, and carries no deity and no time |
| Fortunes.Merged | data-manager.js:14-39 | merging no tables gives no slips; when the last table is present, every deity it has slips for gets exactly those slips, overriding the earlier tables |
| Fortunes.MergedKeys | data-manager.js:14-39 | a deity has slips after the merge exactly when some present part has slips for it |
| Fortunes.MergedLastWins | data-manager.js:14-39 | a deity's slips after the merge come from the last present part that has slips for it |
| Fortunes.MergeFortunes | data-manager.js:14-39 | the loop's result is the ordered key-override merge of the main table and the present parts |
| Fortunes.CountLevel | data-manager.js:173-177 | a level count never exceeds the number of slips |
| Fortunes.CountUnlisted | data-manager.js:173-177 | the count of slips with an unknown level never exceeds the number of slips |
| Fortunes.LevelCountsPartition | data-manager.js:161-180 | the four level counts plus the unknown-level count add up to the number of slips |
| PrayerRecords.Stamp | data-manager.js:246-250 | a saved record is the draft with the given id and time, not a favourite, with no note and no edit time |
| PrayerRecords.Prepended | data-manager.js:245-258 | the new record comes first and the old records follow in their old order; the length grows by one below 100 and stays at 100 once there, with only the oldest record dropped; the cap of 100 is preserved |
| PrayerRecords.WithoutId | data-manager.js:270 | a record survives the delete exactly when it was present and does not carry the id; the list never grows |
| PrayerRecords.WithoutIdConcat | data-manager.js:268-273 | deleting distributes over concatenation, so the kept records keep their relative order |
| PrayerRecords.WithoutAbsentId | data-manager.js:268-273 | deleting an id that no record carries leaves the list unchanged |
| PrayerRecords.WithoutIdLength | data-manager.js:268-273 | the delete removes exactly as many records as carry the id |
| PrayerRecords.FirstIndex | data-manager.js:349 | the lookup finds the first record with the id, or reports that none has it |
| PrayerRecords.DeityKey | data-manager.js:389 | a record is counted under its deity id, or under 'unknown' when that is empty; the key is never empty |
| PrayerRecords.CategoryKey | data-manager.js:385 | a record is counted under its category id, or under 'unknown' when that is empty; the key is never empty |
| PrayerRecords.DeityKeys | data-manager.js:383-391 | gives one deity key per record, in record order |
| PrayerRecords.CategoryKeys | data-manager.js:383-391 | gives one category key per record, in record order |
| PrayerRecords.Bump | data-manager.js:386 | counting a key adds an entry only for a new key; afterwards the key has an entry, every entry of another key is unchanged and the counts sum to one more |
| PrayerRecords.Tally | data-manager.js:383-391 | counting a list gives at most one entry per key counted, with counts that sum to the number of keys |
| PrayerRecords.TallyStep | data-manager.js:383-391 | counting one more key of a list is counting the shorter list and then that key |
| PrayerRecords.CountedStepFound | data-manager.js:386 | counting another occurrence of a key that already has an entry keeps the counter exact: distinct keys, each count equal to its key's occurrences, an entry exactly for each key met, and counts summing to the list length |
| PrayerRecords.CountedStepNew | data-manager.js:386 | counting the first occurrence of a key keeps the counter exact in the same four respects, the new key getting a count of 1 |
| PrayerRecords.TallyCounts | data-manager.js:383-391 | the counter has no repeated key; each entry's count is the number of occurrences of its key and is at least 1; a key has an entry exactly when it occurs; the counts sum to the number of keys |
| PrayerRecords.TallyKeyIn | data-manager.js:383-391 | every key in the counter occurs in the counted list |
| PrayerRecords.TallyKeyAbsent | data-manager.js:383-391 | a key with no entry in the counter never occurs in the counted list |
| PrayerRecords.TallyFirstSeenOrder | data-manager.js:383-401 | the counter's entries are in the order their keys were first met |
| Manager.MostPrayed | data-manager.js:394-401 | the scan finds no deity exactly when every count is zero; otherwise it finds the first entry with the largest count |
| JsCore.FindIndex | data-manager.js:49-51 | `find` yields the first entry satisfying the test, or reports that no entry does; it serves the category lookup and the record lookups |
| Manager.NonEmptyTallyHasCounts | data-manager.js:394-407 | a non-empty record list always leaves a positive count, so a most prayed-to deity is always chosen |
| Manager.DataManager.constructor | data-manager.js:5-11 | the manager holds the given categories and deities, and the fortune table is the merge of the main table and the parts |
| Manager.DataManager.GetDeityCountByCategory | data-manager.js:74-77 | the count is that of the first category with the id, and 0 when no category has it |
| Manager.DataManager.SlipsOf | data-manager.js:162 | a deity with an entry in the fortune table gets exactly that entry's slips; any other deity gets the empty list |
| Manager.DataManager.DeityName | data-manager.js:104 | a deity's name is defined exactly for a known deity id, and is then that deity's own name |
| Manager.DataManager.DrawFortune | data-manager.js:90-108 | a deity without slips gets the fallback slip; otherwise the drawn slip is one of the deity's own, coloured by its level and marked with the deity, its name and the time |
| JsCore.ScaledFloorInRange | data-manager.js:97 | `Math.floor(Math.random() * n)` is a valid index into n slips |
| Manager.DataManager.GetFortuneStatistics | data-manager.js:161-180 | the total is the number of the deity's slips; each level counter counts the slips of that level; the four counters sum to at most the total |
| Manager.DataManager.SavePrayerRecord | data-manager.js:244-259 | the saved record is the stamped draft, and the new list is that record prepended under the cap of 100 |
| Manager.DataManager.DeletePrayerRecord | data-manager.js:268-273 | the list becomes the filtered list, and that list is returned |
| Manager.DataManager.FindRecord | data-manager.js:349 | the loop finds the first record with the id |
| Manager.DataManager.ToggleFavorite | data-manager.js:347-358 | with no record carrying the id, nothing changes and None is returned; otherwise only the first such record changes, with its favourite flag negated, and the updated record is returned |
| Manager.DataManager.UpdateRecordNote | data-manager.js:361-373 | with no record carrying the id, nothing changes and None is returned; otherwise only the first such record changes, getting the note and the edit time, and the updated record is returned |
| Manager.DataManager.GetRecentRecords | data-manager.js:305-308 | the result is a prefix of the records; a count of n >= 0 gives min(n, length) records; a negative count leaves out that many of the oldest |
| Manager.DataManager.GetStatistics | data-manager.js:376-410 | the total is the record count; the category and deity counters count the records' keys; the last prayer time is the newest record's time; with no records the most prayed-to deity is 无, otherwise it is the name of the first deity with the largest count |
| Manager.DataManager.CountRecords | data-manager.js:383-391 | the loop over the records leaves the category counter and the deity counter equal to the counts of the records' category keys and deity keys |
| Ritual.CompletedCount | ritual.js:379-384 | the count is in 0..4; it is 4 exactly when all four conditions hold and 0 exactly when none does |
| Ritual.ParamOr | ritual.js:424-425 | a missing or empty address parameter is replaced by its default |
| Ritual.RitualState.constructor | ritual.js:2-8 | the page starts with an empty wish, nothing done, not completed and no callbacks pending |
| Ritual.RitualState.UpdateProgress | ritual.js:372-411 | the count is the number of conditions met; `completed` becomes true when the count is 4 and is never reset |
| Ritual.RitualState.SetWish | ritual.js:125-131 | the wish is replaced and progress is updated |
| Ritual.RitualState.OfferIncense | ritual.js:171-219 | the action is refused once incense has been offered; otherwise only one incense callback is scheduled, and no flag is set at the start |
| Ritual.RitualState.FinishIncense | ritual.js:220-227 | the callback sets the incense flag and updates progress |
| Ritual.RitualState.PerformBow | ritual.js:231-258 | the action is refused after three bows; otherwise the bow count rises by exactly one and a callback is scheduled; there are never more than three bows |
| Ritual.RitualState.FinishBow | ritual.js:259-269 | the callback updates progress only when the bow count is 3 by then |
| Ritual.RitualState.PlaySutra | ritual.js:274-315 | the action is refused once the sutra has been chanted; otherwise only one sutra callback is scheduled, and no flag is set at the start |
| Ritual.RitualState.FinishSutra | ritual.js:316-324 | the callback sets the sutra flag and updates progress |
| Ritual.RitualState.HandleAction | ritual.js:156-168 | only 'incense', 'bow' and 'sutra' are dispatched, each with the effect of its action; any other name changes nothing |
| Ritual.RitualState.HandleDrawLot | ritual.js:414-432 | changes no state; before completion it does not proceed; after completion it proceeds with the deity and category parameters (with their defaults) and the wish |
| Ritual.FullRitual | ritual.js:372-432 | a fresh page given a non-empty wish, then incense, three bows and the sutra, each callback run before the next press, reaches completion and proceeds to the draw |

## Left out

- The real lunisolar conversion is not part of this model. The code does
  not perform one either:
  - the year table (lunar-calendar.js:15-18), the month lengths (20) and the
    solar-term offsets (26) are never read;
  - the day offset computed with `Date.UTC` (36) is discarded.
- LunarCalendar.GetCyclical: returns `None` where JavaScript would build a
  string from `undefined`, such as `"undefined子"`. The model does not
  reproduce that junk text.
- LunarCalendar.ZodiacAnimal: returns `None` where JavaScript yields
  `undefined`.
- LunarCalendar.ToLunarDay: returns `None` where JavaScript would build
  junk text from `undefined`. Days are integers here, so the `Math.floor`
  of a fractional day is not modelled.
- LunarCalendar.GetSolarTerm: keys its table by the pair (month, day)
  instead of the string `` `${m}-${d}` ``. For integer months and days the
  two keys identify the same dates.
- Local and session storage, and `JSON.stringify`/`JSON.parse`, are not
  modelled. The record list is the `records` field.
- `Date.now()` ids, `toISOString` times and `Math.random()` are not
  modelled. They enter as parameters.
- These data-manager operations are not part of this model:
  - `getRelativeTime`, `formatDateTime`, `getTodayRecords` and
    `getRecordsByDateRange`, which depend on the wall clock and on date
    parsing;
  - `exportData`, `importData`, `validateData`, the settings functions and
    the clear functions, which are storage plumbing;
  - `drawFortuneByLevel`, `getFortuneWithDeityInfo`, `getTotalFortuneCount`
    and the simple `filter` and `find` queries.
- Manager.DataManager.DrawFortune: does not model the slip's own fields
  spread into the drawn object; the slip is kept as one field. A
  `deityName` of `undefined` for an unknown deity is `None`.
- Manager.DataManager.GetRecentRecords: takes the count as a required
  integer. The default of 10 and non-integer counts are not modelled.
- Manager.DataManager.GetStatistics: assumes that record keys are ordinary
  strings. JavaScript objects list integer-like keys first and treat
  inherited names such as `constructor` specially, and neither is modelled.
- Manager.DataManager.GetFortuneStatistics: assumes that level names are
  not inherited object properties such as `constructor`.
- Manager.DataManager.SlipsOf: treats every deity id as an own key of the
  fortune table. In JavaScript an inherited name such as `constructor`
  finds `Object`, a function of length 1, whose element 0 is `undefined`.
  The model gives an empty list there.
- Manager.DataManager.DrawFortune: for an inherited name such as
  `constructor`, JavaScript throws while reading the level of an undefined
  slip. The model returns the fallback slip instead.
- Manager.DataManager.DeityName: for an inherited name such as
  `constructor`, JavaScript finds `Object` and yields `"Object"`. The
  model gives `None`.
- Fortunes.LevelColor: for an inherited name such as `toString`, JavaScript
  finds a function, which is truthy, and returns it. The model gives
  `#999999`.
- PrayerRecords.Stamp: writes `false` for the favourite flag and `None` for
  the note and the edit time. Saving in the app leaves those properties
  absent. `!record.isFavorite` and `isFavorite === true` treat an absent flag
  like `false`, so toggling and the favourites query behave the same.
- The DOM updates are not part of this model: progress dots, progress text,
  toasts, button states and the draw button's event listener. Audio, speech
  synthesis, vibration, the smoke and text animations, and the
  `setInterval` timers are left out as well. A `setTimeout` callback
  appears only as the finish method of its action. The 1.5-second delay
  before leaving the ritual page, and the page navigation itself, become
  the returned outcome.
- The deity-info loading, the music control and the modal handlers of
  ritual.js, and the other pages' scripts (drawing page, home page, records
  page, settings, categories, instructions, security checks, the image
  optimiser, the placeholder fortune data with its duplicate helpers), are
  not part of this model.
