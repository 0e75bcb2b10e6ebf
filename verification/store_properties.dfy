/**
 Properties relating several operations of the record store: rollover
 idempotence, recovery from an unusable file, last-write-wins of the tail
 upsert and its agreement with a keyed upsert, the add/remove relation and
 the well-formedness every operation keeps.
 */
module StoreProperties {
  import opened Wrappers
  import opened Records
  import opened JsonFile
  import opened RecordStore

  // ---------------------------------------------------------------- rollover

  /** Rolling over twice on the same day appends nothing the second time. */
  lemma RolloverIdempotent(s: seq<Record>, today: string)
    ensures Rollover(Rollover(s, today), today) == Rollover(s, today)
  {
  }

  /** Loading twice on one day: the second load saves nothing and hands back
      exactly what the first load returned. */
  lemma LoadTwiceSameDay(f: FileContent, today: string, days: Option<int>)
    ensures var first := LoadData(f, today, days);
            LoadData(first.file, today, days) == first
  {
    var first := LoadData(f, today, days);
    var stored := ReadJsonFile(first.file);
    assert Rollover(ReadJsonFile(f), today) == stored;
    assert !RolloverDue(stored, today);
  }

  /** Asking twice for today's record on one day gives the same record and
      file both times. */
  lemma GetTodayTwiceSameDay(f: FileContent, today: string)
    ensures GetToday(GetToday(f, today).file, today) == GetToday(f, today)
  {
    LoadTwiceSameDay(f, today, None);
  }

  /** A missing, malformed or non-list file starts a fresh history holding
      only today's record with the default settings. */
  lemma UnusableFileStartsFresh(f: FileContent, today: string)
    requires !f.List?
    ensures var loaded := GetToday(f, today);
            loaded.record == Record(today, DefaultGoal, DefaultGlassSize, DefaultSipSize, 0.0)
            && loaded.file == List([loaded.record])
  {
  }

  /** A window at least as long as the history is the whole history. */
  lemma ShortHistoryIsWhole(f: FileContent, today: string, n: int)
    requires n > 0
    ensures var recent := GetRecent(f, today, n);
            n >= |ReadJsonFile(recent.file)| ==> recent.records == ReadJsonFile(recent.file)
  {
  }

  /** Rollover keeps every record well-formed when the history was. */
  lemma RolloverKeepsWellFormed(s: seq<Record>, today: string)
    requires AllWellFormed(s)
    ensures AllWellFormed(Rollover(s, today))
  {
    if RolloverDue(s, today) {
      var r := Rollover(s, today);
      assert forall i :: 0 <= i < |s| ==> r[i] == s[i];
    }
  }

  /** Rollover keeps dates unique unless today's date already sits on a
      record before the last one (a clock set back). */
  lemma RolloverKeepsUniqueDates(s: seq<Record>, today: string)
    requires UniqueDates(s)
    requires forall i :: 0 <= i < |s| - 1 ==> s[i].date != today
    ensures UniqueDates(Rollover(s, today))
  {
  }

  // ------------------------------------------------------------- tail upsert

  /** Upserting two records of the same date keeps only the second. */
  lemma TailUpsertLastWins(s: seq<Record>, e1: Record, e2: Record)
    requires e1.date == e2.date
    ensures TailUpsert(TailUpsert(s, e1), e2) == TailUpsert(s, e2)
  {
  }

  /** The tail upsert keeps dates unique, and leaves exactly one record of
      the entry's date, when that date is the last one or not yet present. */
  lemma TailUpsertKeepsUniqueDates(s: seq<Record>, e: Record)
    requires UniqueDates(s)
    requires forall i :: 0 <= i < |s| - 1 ==> s[i].date != e.date
    ensures UniqueDates(TailUpsert(s, e))
    ensures CountDate(TailUpsert(s, e), e.date) == 1
  {
    UniqueLastCountsOnce(TailUpsert(s, e));
  }

  /** The tail upsert keeps every record well-formed when the entry is. */
  lemma TailUpsertKeepsWellFormed(s: seq<Record>, e: Record)
    requires AllWellFormed(s) && WellFormed(e)
    ensures AllWellFormed(TailUpsert(s, e))
  {
    var r := TailUpsert(s, e);
    assert forall i :: 0 <= i < |r| - 1 ==> r[i] == s[i];
  }

  /** Index of the first record dated `d`, if any. */
  function FirstIndexOfDate(s: seq<Record>, d: string): (r: Option<nat>)
    ensures r.Some? ==> r.value < |s| && s[r.value].date == d
                        && forall j :: 0 <= j < r.value ==> s[j].date != d
    ensures r.None? ==> forall i :: 0 <= i < |s| ==> s[i].date != d
  {
    if |s| == 0 then None
    else if s[0].date == d then Some(0)
    else match FirstIndexOfDate(s[1..], d)
      case None => None
      case Some(k) => Some(k + 1)
  }

  /** Reference definition of upsert-by-date: replace the record of the
      entry's date wherever it is, otherwise append. */
  function KeyedUpsert(s: seq<Record>, e: Record): (r: seq<Record>)
    ensures |s| <= |r| <= |s| + 1 && e in r
    ensures |r| == |s| <==> exists i :: 0 <= i < |s| && s[i].date == e.date
    ensures forall i :: 0 <= i < |s| && s[i].date != e.date ==> r[i] == s[i]
  {
    match FirstIndexOfDate(s, e.date)
    case Some(i) => assert s[i := e][i] == e; s[i := e]
    case None => s + [e]
  }

  /** The keyed upsert keeps dates unique and leaves exactly one record of
      the entry's date. */
  lemma KeyedUpsertKeepsUniqueDates(s: seq<Record>, e: Record)
    requires UniqueDates(s)
    ensures UniqueDates(KeyedUpsert(s, e)) && CountDate(KeyedUpsert(s, e), e.date) == 1
  {
    match FirstIndexOfDate(s, e.date)
    case Some(i) =>
      KeyedReplaceCountsOnce(s, i, e);
    case None =>
      CountDateAppend(s, [e], e.date);
      CountDateZero(s, e.date);
      assert CountDate([e], e.date) == 1;
  }

  lemma KeyedReplaceCountsOnce(s: seq<Record>, i: nat, e: Record)
    requires UniqueDates(s) && i < |s| && s[i].date == e.date
    ensures UniqueDates(s[i := e]) && CountDate(s[i := e], e.date) == 1
  {
    var r := s[i := e];
    assert r == r[..i] + [e] + r[i + 1..];
    CountDateAppend(r[..i] + [e], r[i + 1..], e.date);
    CountDateAppend(r[..i], [e], e.date);
    CountDateZero(r[..i], e.date);
    CountDateZero(r[i + 1..], e.date);
    assert CountDate([e], e.date) == 1;
  }

  /** On a history with unique dates, the tail upsert is the keyed upsert
      exactly when no record before the last one carries the entry's date. */
  lemma TailUpsertIsKeyedIff(s: seq<Record>, e: Record)
    requires UniqueDates(s)
    ensures TailUpsert(s, e) == KeyedUpsert(s, e)
            <==> forall i :: 0 <= i < |s| - 1 ==> s[i].date != e.date
  {
    match FirstIndexOfDate(s, e.date)
    case None =>
    case Some(k) =>
      if k < |s| - 1 {
        assert |KeyedUpsert(s, e)| == |s|;
        assert |TailUpsert(s, e)| == |s| + 1;
      }
  }

  /** A record held by the window across midnight: the chart's load rolls the
      store over to the new day, then adding water to the held record appends
      it again, so the store holds two records for the old date. */
  lemma StaleRecordDuplicatesDate()
    ensures var held := Record("2024-05-01", 2000, 250, 62.5, 500.0);
            var file := GetRecent(List([held]), "2024-05-02", 7).file;
            var stored := ReadJsonFile(AddWater(file, held, false).file);
            |stored| == 3 && CountDate(stored, "2024-05-01") == 2
            && !UniqueDates(stored)
  {
    var held := Record("2024-05-01", 2000, 250, 62.5, 500.0);
    var file := GetRecent(List([held]), "2024-05-02", 7).file;
    var rolled := ReadJsonFile(file);
    assert rolled == [held, NewDayRecord([held], "2024-05-02")];
    var added := AddWater(file, held, false).entry;
    var stored := ReadJsonFile(AddWater(file, held, false).file);
    assert stored == rolled + [added];
    assert stored[0].date == stored[2].date;
    CountDateAppend(rolled, [added], "2024-05-01");
    CountDateAppend([held], [rolled[1]], "2024-05-01");
    assert CountDate([added], "2024-05-01") == 1;
    assert CountDate([held], "2024-05-01") == 1;
    assert CountDate([rolled[1]], "2024-05-01") == 0;
  }

  // ---------------------------------------------------------- mutations

  /** Adding a glass and removing it again restores a non-negative intake. */
  lemma AddGlassThenRemove(f: FileContent, e: Record)
    requires e.intake >= 0.0
    ensures var added := AddWater(f, e, false);
            RemoveWater(added.file, added.entry).entry == e
  {
  }

  /** Removal always takes a glass: 100 ml with a 250 ml glass becomes 0, and
      removing after a sip does not undo the sip. */
  lemma RemoveTakesGlassNotSip(f: FileContent)
    ensures var e := Record("2024-05-01", 2000, 250, 62.5, 100.0);
            RemoveWater(f, e).entry.intake == 0.0
            && var sipped := AddWater(f, e, true);
               sipped.entry.intake == 162.5
               && RemoveWater(sipped.file, sipped.entry).entry != e
  {
  }

  /** Adding and removing water keep a well-formed record well-formed. */
  lemma IntakeChangesKeepWellFormed(f: FileContent, e: Record, sip: bool)
    requires WellFormed(e)
    ensures WellFormed(AddWater(f, e, sip).entry)
    ensures WellFormed(RemoveWater(f, e).entry)
  {
  }

  /** New settings keep a record well-formed exactly when both are positive,
      which is what the settings dialog checks before calling the store. */
  lemma SettingsWellFormedIff(f: FileContent, e: Record, goal: int, glassSize: int)
    requires WellFormed(e)
    ensures WellFormed(UpdateSettings(f, e, goal, glassSize).entry) <==> goal > 0 && glassSize > 0
  {
  }

  /** Saving settings twice is the same as saving the second settings once. */
  lemma UpdateSettingsLastWins(f: FileContent, e: Record, g1: int, s1: int, g2: int, s2: int)
    ensures var first := UpdateSettings(f, e, g1, s1);
            UpdateSettings(first.file, first.entry, g2, s2) == UpdateSettings(f, e, g2, s2)
  {
    var first := UpdateSettings(f, e, g1, s1);
    TailUpsertLastWins(ReadJsonFile(f), first.entry, e.(goal := g2, glassSize := s2));
  }

  /** A whole day of use: load today's record, add water twice. The file ends
      with one record for today, the second mutation, and no extra record. */
  lemma MutateTodayTwice(f: FileContent, today: string, sip1: bool, sip2: bool)
    requires UniqueDates(ReadJsonFile(f))
    requires var s := ReadJsonFile(f); forall i :: 0 <= i < |s| - 1 ==> s[i].date != today
    ensures var loaded := GetToday(f, today).file;
            var rec := GetToday(f, today).record;
            var first := AddWater(loaded, rec, sip1);
            var second := AddWater(first.file, first.entry, sip2);
            var stored := ReadJsonFile(second.file);
            |stored| == |ReadJsonFile(loaded)| && Last(stored) == second.entry
            && UniqueDates(stored) && CountDate(stored, today) == 1
  {
    var loaded := GetToday(f, today).file;
    var rec := GetToday(f, today).record;
    var s0 := ReadJsonFile(loaded);
    RolloverKeepsUniqueDates(ReadJsonFile(f), today);
    var first := AddWater(loaded, rec, sip1);
    var second := AddWater(first.file, first.entry, sip2);
    TailUpsertLastWins(s0, first.entry, second.entry);
    TailUpsertKeepsUniqueDates(s0, second.entry);
  }

  /** Every mutation of a well-formed record keeps a well-formed file
      well-formed. */
  lemma AddWaterKeepsFileWellFormed(f: FileContent, e: Record, sip: bool)
    requires AllWellFormed(ReadJsonFile(f)) && WellFormed(e)
    ensures AllWellFormed(ReadJsonFile(AddWater(f, e, sip).file))
  {
    TailUpsertKeepsWellFormed(ReadJsonFile(f), AddWater(f, e, sip).entry);
  }
}
