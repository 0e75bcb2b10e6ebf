/**
 One day's water-tracking state, as stored in the JSON list of the tracker.
 Volumes are millilitres. `intake` and `sipSize` are exact reals because the
 default sip is 62.5 ml and intake becomes fractional after a sip.
 */
module Records {

  datatype Record = Record(
    date: string,      // ISO calendar date, "YYYY-MM-DD"
    goal: int,         // daily target
    glassSize: int,    // increment of a full glass
    sipSize: real,     // increment of a sip
    intake: real       // volume logged so far on `date`
  )

  /** Settings that seed the very first day when no history exists. */
  const DefaultGoal: int := 2000
  const DefaultGlassSize: int := 250
  const DefaultSipSize: real := 62.5

  /** The last record of a non-empty store: the "current" day. */
  function Last(s: seq<Record>): Record
    requires |s| > 0
  {
    s[|s| - 1]
  }

  /** The invariants the tracker means to keep for every record: positive
      settings and a non-negative intake. The store itself does not enforce
      the settings part; the settings dialog does. */
  predicate WellFormed(r: Record) {
    r.goal > 0 && r.glassSize > 0 && r.sipSize > 0.0 && r.intake >= 0.0
  }

  predicate AllWellFormed(s: seq<Record>) {
    forall i :: 0 <= i < |s| ==> WellFormed(s[i])
  }

  /** At most one record per calendar date. */
  predicate UniqueDates(s: seq<Record>) {
    forall i, j :: 0 <= i < j < |s| ==> s[i].date != s[j].date
  }

  /** Number of records in `s` whose date is `d`. */
  function CountDate(s: seq<Record>, d: string): nat {
    if |s| == 0 then 0
    else (if s[0].date == d then 1 else 0) + CountDate(s[1..], d)
  }

  /** Counting over a concatenation adds up. */
  lemma {:induction false} CountDateAppend(s: seq<Record>, t: seq<Record>, d: string)
    ensures CountDate(s + t, d) == CountDate(s, d) + CountDate(t, d)
  {
    if |s| == 0 {
      assert s + t == t;
    } else {
      assert (s + t)[1..] == s[1..] + t;
      CountDateAppend(s[1..], t, d);
    }
  }

  /** A date that no record carries is counted zero times, and a date some
      record carries is counted at least once. */
  lemma {:induction false} CountDateZero(s: seq<Record>, d: string)
    ensures CountDate(s, d) == 0 <==> forall i :: 0 <= i < |s| ==> s[i].date != d
  {
    if |s| > 0 {
      CountDateZero(s[1..], d);
      assert forall i :: 1 <= i < |s| ==> s[i] == s[1..][i - 1];
    }
  }

  /** In a store with unique dates, the last record's date occurs exactly once. */
  lemma UniqueLastCountsOnce(s: seq<Record>)
    requires |s| > 0 && UniqueDates(s)
    ensures CountDate(s, Last(s).date) == 1
  {
    var n := |s| - 1;
    assert s == s[..n] + [s[n]];
    CountDateAppend(s[..n], [s[n]], s[n].date);
    CountDateZero(s[..n], s[n].date);
    assert CountDate([s[n]], s[n].date) == 1;
  }
}
