/**
 The daily-record store of the water tracker: day rollover on load, the
 trailing-window read, the three record mutations and the tail upsert that
 persists them. The file is a value each operation takes and returns, and
 "today" is a parameter.
 */
module RecordStore {
  import opened Wrappers
  import opened Records
  import opened JsonFile

  /** What the loader hands back: the current record when no positive (or
      negative) window was asked for, otherwise a slice of the history. */
  datatype View = Single(record: Record) | Window(records: seq<Record>)

  /** Result of loading: the file after the optional save, and the view. */
  datatype Loaded = Loaded(file: FileContent, view: View)

  /** Result of a mutation: the record as the caller now holds it (the source
      mutates the caller's dictionary in place) and the file after saving. */
  datatype Saved = Saved(entry: Record, file: FileContent)

  /** Result of asking for today's record: the file after the load and the record. */
  datatype Today = Today(file: FileContent, record: Record)

  /** Result of asking for recent days: the file after the load and the window. */
  datatype Recent = Recent(file: FileContent, records: seq<Record>)

  /** Rollover is due when there is no history or the last record is not today's. */
  predicate RolloverDue(s: seq<Record>, today: string) {
    |s| == 0 || Last(s).date != today
  }

  /** The record that starts a new day: settings copied from the previous
      last record, or the defaults on an empty store, with nothing drunk yet. */
  function NewDayRecord(s: seq<Record>, today: string): (r: Record)
    ensures r.date == today && r.intake == 0.0
    ensures |s| > 0 ==> r.goal == Last(s).goal && r.glassSize == Last(s).glassSize
                        && r.sipSize == Last(s).sipSize
    ensures |s| == 0 ==> r.goal == DefaultGoal && r.glassSize == DefaultGlassSize
                         && r.sipSize == DefaultSipSize
  {
    if |s| > 0 then Last(s).(date := today, intake := 0.0)
    else Record(today, DefaultGoal, DefaultGlassSize, DefaultSipSize, 0.0)
  }

  /** The history after the rollover step of the loader. */
  function Rollover(s: seq<Record>, today: string): (r: seq<Record>)
    ensures |r| > 0 && Last(r).date == today
    ensures !RolloverDue(s, today) ==> r == s
    ensures RolloverDue(s, today) ==>
              |r| == |s| + 1 && r[..|s|] == s && Last(r) == NewDayRecord(s, today)
  {
    if RolloverDue(s, today) then s + [NewDayRecord(s, today)] else s
  }

  /** Python's `s[start:]` for any integer `start`: a negative start counts
      from the end and both ends are clamped to the list. */
  function SliceFrom(s: seq<Record>, start: int): (r: seq<Record>)
    ensures |r| <= |s| && r == s[|s| - |r|..]
    ensures start >= 0 ==> |r| == |s| - (if start < |s| then start else |s|)
    ensures start < 0 ==> |r| == (if -start < |s| then -start else |s|)
  {
    var from := if start < 0 then (if |s| + start < 0 then 0 else |s| + start)
                else (if start < |s| then start else |s|);
    s[from..]
  }

  /** `load_data(days)`: read the file, roll over to today (saving only when a
      record was appended), then return the last record when `days` is absent
      or zero, and `data[-days:]` otherwise. */
  function LoadData(f: FileContent, today: string, days: Option<int>): (r: Loaded)
    ensures var stored := ReadJsonFile(r.file);
            |stored| > 0 && Last(stored).date == today
            && stored == Rollover(ReadJsonFile(f), today)
    ensures !RolloverDue(ReadJsonFile(f), today) ==> r.file == f
    ensures r.view.Single? <==> (days.None? || days.value == 0)
    ensures r.view.Single? ==> r.view.record == Last(ReadJsonFile(r.file))
    ensures r.view.Window? && days.value > 0 ==>
              var stored := ReadJsonFile(r.file);
              var n := if days.value < |stored| then days.value else |stored|;
              |r.view.records| == n && r.view.records == stored[|stored| - n..]
    ensures r.view.Window? && days.value < 0 ==>
              var stored := ReadJsonFile(r.file);
              var k := if -days.value < |stored| then -days.value else |stored|;
              r.view.records == stored[k..]
  {
    var data := ReadJsonFile(f);
    var rolled := Rollover(data, today);
    var saved := if RolloverDue(data, today) then SaveData(rolled) else f;
    if days.None? || days.value == 0 then Loaded(saved, Single(Last(rolled)))
    else Loaded(saved, Window(SliceFrom(rolled, -days.value)))
  }

  /** The current day's record (the loader called without `days`). */
  function GetToday(f: FileContent, today: string): (r: Today)
    ensures ReadJsonFile(r.file) == Rollover(ReadJsonFile(f), today)
    ensures !RolloverDue(ReadJsonFile(f), today) ==> r.file == f
    ensures r.record.date == today
    ensures var stored := ReadJsonFile(r.file); |stored| > 0 && r.record == Last(stored)
  {
    var loaded := LoadData(f, today, None);
    Today(loaded.file, loaded.view.record)
  }

  /** The trailing `n` days of history, oldest first (the loader called with
      a positive `days`). */
  function GetRecent(f: FileContent, today: string, n: int): (r: Recent)
    requires n > 0
    ensures ReadJsonFile(r.file) == Rollover(ReadJsonFile(f), today)
    ensures !RolloverDue(ReadJsonFile(f), today) ==> r.file == f
    ensures 1 <= |r.records| <= n && Last(r.records).date == today
    ensures var stored := ReadJsonFile(r.file);
            |r.records| == (if n < |stored| then n else |stored|)
            && r.records == stored[|stored| - |r.records|..]
  {
    var loaded := LoadData(f, today, Some(n));
    Recent(loaded.file, loaded.view.records)
  }

  /** `update_data_list` on an already read history: replace the last record
      when it has the entry's date, otherwise append the entry. */
  function TailUpsert(s: seq<Record>, entry: Record): (r: seq<Record>)
    ensures |r| > 0 && Last(r) == entry
    ensures |s| > 0 && Last(s).date == entry.date ==>
              |r| == |s| && r[..|s| - 1] == s[..|s| - 1]
    ensures !(|s| > 0 && Last(s).date == entry.date) ==>
              |r| == |s| + 1 && r[..|s|] == s
  {
    if |s| > 0 && Last(s).date == entry.date then s[|s| - 1 := entry]
    else s + [entry]
  }

  /** `update_data_list`: re-read the file and upsert the entry at its tail. */
  function UpdateDataList(f: FileContent, entry: Record): (r: seq<Record>)
    ensures var s := ReadJsonFile(f);
            |r| > 0 && Last(r) == entry && (|r| == |s| || |r| == |s| + 1)
            && r[..|r| - 1] == s[..|r| - 1]
    ensures var s := ReadJsonFile(f); |r| == |s| <==> |s| > 0 && Last(s).date == entry.date
  {
    TailUpsert(ReadJsonFile(f), entry)
  }

  /** `_update_daily_data` as the source uses it (always with key "intake"):
      set the entry's intake, upsert it into the file, save. */
  function UpdateDailyData(f: FileContent, entry: Record, intake: real): (r: Saved)
    ensures r.entry.intake == intake
    ensures r.entry.(intake := entry.intake) == entry
    ensures ReadJsonFile(r.file) == TailUpsert(ReadJsonFile(f), r.entry)
    ensures var stored := ReadJsonFile(r.file); |stored| > 0 && Last(stored) == r.entry
  {
    var updated := entry.(intake := intake);
    Saved(updated, SaveData(UpdateDataList(f, updated)))
  }

  /** `add_water`: drink a sip or a glass. */
  function AddWater(f: FileContent, entry: Record, sip: bool): (r: Saved)
    ensures r.entry.intake == entry.intake + (if sip then entry.sipSize else entry.glassSize as real)
    ensures r.entry.(intake := entry.intake) == entry
    ensures ReadJsonFile(r.file) == TailUpsert(ReadJsonFile(f), r.entry)
    ensures var stored := ReadJsonFile(r.file); |stored| > 0 && Last(stored) == r.entry
  {
    var increment := if sip then entry.sipSize else entry.glassSize as real;
    UpdateDailyData(f, entry, entry.intake + increment)
  }

  /** `remove_water`: take back one glass (never a sip), not going below zero. */
  function RemoveWater(f: FileContent, entry: Record): (r: Saved)
    ensures r.entry.intake >= 0.0
    ensures r.entry.intake == (if entry.intake > entry.glassSize as real
                               then entry.intake - entry.glassSize as real else 0.0)
    ensures r.entry.(intake := entry.intake) == entry
    ensures ReadJsonFile(r.file) == TailUpsert(ReadJsonFile(f), r.entry)
    ensures var stored := ReadJsonFile(r.file); |stored| > 0 && Last(stored) == r.entry
  {
    var less := entry.intake - entry.glassSize as real;
    UpdateDailyData(f, entry, if 0.0 > less then 0.0 else less)
  }

  /** `update_settings`: overwrite goal and glass size, unchecked, and save. */
  function UpdateSettings(f: FileContent, entry: Record, goal: int, glassSize: int): (r: Saved)
    ensures r.entry.goal == goal && r.entry.glassSize == glassSize
    ensures r.entry.date == entry.date && r.entry.sipSize == entry.sipSize
            && r.entry.intake == entry.intake
    ensures ReadJsonFile(r.file) == TailUpsert(ReadJsonFile(f), r.entry)
    ensures var stored := ReadJsonFile(r.file); |stored| > 0 && Last(stored) == r.entry
  {
    var updated := entry.(goal := goal, glassSize := glassSize);
    Saved(updated, SaveData(UpdateDataList(f, updated)))
  }
}
