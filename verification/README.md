# Water tracker daily-record store, modelled in Dafny

The water tracker keeps one record per calendar day (date, goal, glass size,
sip size, intake) in a JSON list on disk. Its store, in `logic.py`:

- on every load, rolls over to today by appending a fresh record whose
  settings are copied from the last record (or 2000 / 250 / 62.5 ml on an
  empty store) and whose intake is 0, saving only when it appended;
- returns either today's record or the trailing `days` records;
- adds a sip or a glass, removes a glass (clamped at zero), or changes goal
  and glass size, and persists each change by re-reading the file and
  replacing its last record when the dates match, appending otherwise;
- reads a missing file, a file `json.load` rejects with `JSONDecodeError`, or
  a file whose top-level JSON value is not a list as the empty history.

The model is functional. The file is a value of `JsonFile.FileContent`
(`Missing | Malformed | NonList | List(records)`), every operation takes it
and returns the file it would leave behind, and today's date is a parameter.
`intake` and `sipSize` are exact reals, `goal` and `glassSize` integers.
The chart window of `main.py` (lines 126-137) is modelled as far as its data
goes: the projection to (date, intake, goal) and the y-axis floor
`min(intake) - 250`.

Modules: `Wrappers` (Option), `Records` (the record, defaults, uniqueness and
well-formedness), `JsonFile` (reading and saving), `RecordStore` (the
operations of `logic.py`), `StoreProperties` (lemmas relating operations),
`ChartHistory` (the chart's data).

Points of the source worth knowing:

- Intake is a real: adding a 62.5 ml sip makes it fractional.
- `update_data_list` compares the entry only with the LAST stored record,
  though its docstring (`logic.py:46`) speaks of replacing the current day's
  entry. `StoreProperties.TailUpsertIsKeyedIff` pins down exactly when this
  agrees with replacing the record of that date wherever it is, and
  `StoreProperties.StaleRecordDuplicatesDate` shows a record held by the
  window across midnight being appended a second time.
- `load_data` slices `data[-days:]` for any non-zero integer, so a negative
  `days` drops the first `-days` records. `RecordStore.LoadData` models that
  too.

## Model

| member | source | states |
|---|---|---|
| JsonFile.ReadJsonFile | logic.py:57-66 | a list file reads as its records; a missing, malformed or non-list file reads as the empty history |
| JsonFile.SaveData | logic.py:22-25 | saving always leaves a list file |
| JsonFile.SaveThenRead | logic.py:22-25 | what is saved is read back unchanged |
| RecordStore.NewDayRecord | logic.py:14-15 | the new day's record has today's date, intake 0, and goal/glass/sip of the previous last record, or 2000/250/62.5 on an empty store |
| RecordStore.Rollover | logic.py:13-17 | afterwards the store is non-empty and ends with today; nothing changes when it already did; otherwise exactly one record is appended and every earlier record is kept |
| RecordStore.SliceFrom | logic.py:19 | Python's `s[start:]`: a suffix whose length follows the clamping of negative and positive starts |
| RecordStore.LoadData | logic.py:8-19 | the saved store is the rolled-over store ending with today; the file is untouched when no rollover was due; absent or zero `days` gives the last record, positive `days` the last min(days, length) records in order, negative `days` the store without its first -days records |
| RecordStore.GetToday | logic.py:19 | the saved store is the input's rolled-over history, the file is untouched when no rollover was due, and the returned record is its last record, dated today |
| RecordStore.GetRecent | logic.py:19 | for n > 0: the saved store is the input's rolled-over history (file untouched when no rollover was due), and the result is its suffix of length min(n, length), between 1 and n records, ending with today |
| RecordStore.TailUpsert | logic.py:49-52 | the entry becomes the last record; same last date: length kept and earlier records kept; otherwise appended with the whole store kept before it |
| RecordStore.UpdateDataList | logic.py:45-54 | the re-read file with the entry at its tail, earlier records unchanged; the length stays the same exactly when the re-read last date equals the entry's date, otherwise it grows by one |
| RecordStore.UpdateDailyData | logic.py:69-72 | only the intake changes, and the saved file is the re-read file with the updated record upserted at its tail |
| RecordStore.AddWater | logic.py:28-31 | intake grows by the sip size or the glass size, no other field changes, and the saved file is the re-read file with the updated record upserted at its tail |
| RecordStore.RemoveWater | logic.py:34-36 | intake becomes max(0, intake - glass size), never negative, no other field changes, and the saved file is the re-read file with the updated record upserted at its tail |
| RecordStore.UpdateSettings | logic.py:39-42 | goal and glass size take the given values with no positivity check; date, sip size and intake are unchanged; the saved file is the re-read file with the updated record upserted at its tail |
| StoreProperties.RolloverIdempotent | logic.py:13-17 | a second rollover on the same day appends nothing |
| StoreProperties.LoadTwiceSameDay | logic.py:8-19 | a second load on the same day, with the same `days`, returns exactly what the first returned and leaves the file as the first left it |
| StoreProperties.GetTodayTwiceSameDay | logic.py:13-19 | asking twice for today's record on one day yields the same record and the same file |
| StoreProperties.UnusableFileStartsFresh | logic.py:8-17 | loading a missing, malformed or non-list file yields today's default record (2000, 250, 62.5, intake 0) and a file holding only it |
| StoreProperties.ShortHistoryIsWhole | logic.py:19 | a window at least as long as the history returns the whole history |
| StoreProperties.RolloverKeepsWellFormed | logic.py:13-16 | a store of records with positive settings and non-negative intake stays so after rollover |
| StoreProperties.RolloverKeepsUniqueDates | logic.py:13-16 | rollover keeps dates unique unless today already sits on a record before the last |
| StoreProperties.TailUpsertLastWins | logic.py:49-52 | upserting two records of one date leaves only the second |
| StoreProperties.TailUpsertKeepsUniqueDates | logic.py:49-52 | when the entry's date is the last date or new, dates stay unique and exactly one record carries the entry's date |
| StoreProperties.TailUpsertKeepsWellFormed | logic.py:49-52 | upserting a well-formed record into a well-formed store keeps it well-formed |
| StoreProperties.KeyedUpsert | logic.py:45-54 | reference upsert-by-date: at most one record longer, contains the entry, same length exactly when the date was present, records of other dates kept |
| StoreProperties.KeyedUpsertKeepsUniqueDates | logic.py:45-54 | the reference upsert keeps dates unique and leaves one record of the entry's date |
| StoreProperties.TailUpsertIsKeyedIff | logic.py:49-52 | on a store with unique dates, the tail upsert equals the keyed upsert exactly when no record before the last carries the entry's date |
| StoreProperties.StaleRecordDuplicatesDate | logic.py:45-54 | a record held across midnight, after a chart load rolled the store over, is appended again, leaving two records of the old date |
| StoreProperties.AddGlassThenRemove | logic.py:28-36 | adding a glass then removing one restores any non-negative intake |
| StoreProperties.RemoveTakesGlassNotSip | logic.py:34-36 | intake 100 with a 250 ml glass becomes 0; removing after a sip does not undo the sip |
| StoreProperties.IntakeChangesKeepWellFormed | logic.py:28-36 | adding and removing water keep a well-formed record well-formed |
| StoreProperties.SettingsWellFormedIff | main.py:158-162 | new settings keep a well-formed record well-formed exactly when goal and glass size are positive, the check the settings dialog makes |
| StoreProperties.UpdateSettingsLastWins | logic.py:39-54 | saving settings twice equals saving the second settings once, file included |
| StoreProperties.MutateTodayTwice | logic.py:28-54 | loading today and adding water twice leaves exactly one record for today, the second mutation, with no extra record |
| StoreProperties.AddWaterKeepsFileWellFormed | logic.py:28-54 | adding water to a well-formed record keeps a well-formed file well-formed |
| ChartHistory.Project | main.py:128-129 | one point per record, in order, carrying its date, intake and goal |
| ChartHistory.MinIntake | main.py:137 | the smallest intake of a non-empty series: attained and below every other |
| ChartHistory.AxisFloor | main.py:137 | 250 ml below the smallest intake, attained by some point |
| ChartHistory.History | main.py:126-129 | the saved store is the input's rolled-over history and the chart data is the projection of its last min(days, length) records, ending with today |
| ChartHistory.HistoryFloorDefined | main.py:128-137 | the chart's series is never empty, so its floor is defined, and is at least -250 when the records are well-formed |

## Left out

- JSON encoding and decoding, `os.path.exists` and the file system: the file is the abstract `FileContent` value.
- JsonFile.ReadJsonFile: read errors other than `JSONDecodeError` (undecodable bytes, a directory, no permission) propagate out of `load_data` in the source and are not modelled.
- `datetime.today()`: today's date is a parameter.
- Python float rounding: intake and sip size are exact reals.
- Extra unknown keys carried over by `{**last_entry, ...}`, and the crash on list elements that are not day records or lack a key: outside the record schema.
- The unlocked read-modify-write between processes: the source gives no guarantee there.
- RecordStore.UpdateDailyData: models `_update_daily_data` only with the key `"intake"`, the only key the source passes.
- The Tkinter window, buttons, key bindings, images, the progress index of `main.py:88` and the drawing of the chart: user interface.
- `version.py`: reads a text file and swallows errors, no logic.
