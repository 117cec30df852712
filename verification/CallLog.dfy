/** The pruned tally against the log of every call ever made. */
module CallLog {
  import opened Bytes
  import opened Calendar
  import opened ApiStats

  datatype Call = Call(date: Date, endpoint: string)

  predicate Dated(log: seq<Call>) {
    forall i :: 0 <= i < |log| ==> Usable(log[i].date)
  }

  /** The tally after a log of calls. */
  function Tally(log: seq<Call>): map<string, DayCount>
    requires Dated(log)
  {
    if log == [] then map[]
    else
      var last := log[|log| - 1];
      Recorded(Tally(log[..|log| - 1]), last.date, last.endpoint)
  }

  predicate Counts(call: Call, prefix: string, what: Option<string>)
    requires Valid(call.date)
  {
    prefix <= Iso(call.date) && (what == None || what == Some(call.endpoint))
  }

  /** How many calls of the log fall on days whose ISO text starts with the prefix. */
  function Count(log: seq<Call>, prefix: string, what: Option<string>): nat
    requires Dated(log)
  {
    if log == [] then 0
    else
      var last := log[|log| - 1];
      assert Usable(last.date);
      Count(log[..|log| - 1], prefix, what) + if Counts(last, prefix, what) then 1 else 0
  }

  predicate UpTo(log: seq<Call>, now: Date) {
    Dated(log) && forall i :: 0 <= i < |log| ==> !Before(now, log[i].date)
  }

  predicate InOrder(log: seq<Call>) {
    Dated(log) && (forall i, j :: 0 <= i < j < |log| ==> !Before(log[j].date, log[i].date))
  }

  /** The text of a day, or of its month. */
  predicate Current(prefix: string, now: Date)
    requires Valid(now)
  {
    prefix == Iso(now) || prefix == MonthText(now)
  }

  // ---------------------------------------------------------------- one call

  lemma CountedTotal(days: map<string, DayCount>, call: Call, prefix: string, what: Option<string>)
    requires Valid(call.date)
    ensures Total(Counted(days, call.date, call.endpoint), prefix, what)
         == Total(days, prefix, what) + if Counts(call, prefix, what) then 1 else 0
  {
    var key := Iso(call.date);
    var days' := Counted(days, call.date, call.endpoint);
    var others := KeysWith(days, prefix) - {key};
    SumSame(days, days', others, what);
    if key in KeysWith(days, prefix) {
      SumPick(days, KeysWith(days, prefix), key, what);
    } else {
      assert others == KeysWith(days, prefix);
    }
    assert KeysWith(days', prefix) - {key} == others;
    if prefix <= key {
      SumPick(days', KeysWith(days', prefix), key, what);
    } else {
      assert KeysWith(days', prefix) == others;
    }
  }

  lemma PrunedTotal(days: map<string, DayCount>, cutoff: string, prefix: string, what: Option<string>)
    requires forall key :: key in KeysWith(days, prefix) ==> !TextLess(key, cutoff)
    ensures Total(Pruned(days, cutoff), prefix, what) == Total(days, prefix, what)
  {
    assert KeysWith(Pruned(days, cutoff), prefix) == KeysWith(days, prefix);
    SumSame(days, Pruned(days, cutoff), KeysWith(days, prefix), what);
  }

  /** A tally's keys are the texts of days that were logged. */
  lemma {:induction false} KeysAreLogged(log: seq<Call>, key: string)
    requires Dated(log) && key in Tally(log)
    ensures exists i :: 0 <= i < |log| && key == Iso(log[i].date)
  {
    var rest, last := log[..|log| - 1], log[|log| - 1];
    if key != Iso(last.date) {
      KeysAreLogged(rest, key);
      var i :| 0 <= i < |rest| && key == Iso(rest[i].date);
      assert log[i] == rest[i];
    }
  }

  /** Two ISO texts with the same month part are less than 31 days apart. */
  lemma MonthSpan(a: Date, b: Date)
    requires Valid(a) && Valid(b) && SameMonth(a, b)
    ensures DayNumber(a) - DayNumber(b) < 31
  {
  }

  /** Pruning on any day up to now leaves the current month alone. */
  lemma CurrentIsKept(prefix: string, now: Date, today: Date, d: Date)
    requires Valid(now) && Usable(today) && Valid(d) && !Before(now, today) && Current(prefix, now) && prefix <= Iso(d)
    ensures !TextLess(Iso(d), Iso(Cutoff(today)))
  {
    assert MonthText(d) == Iso(d)[..8] && MonthText(now) == prefix[..8];
    MonthTextOrder(d, now);
    MonthSpan(now, d);
    BeforeIsLess(now, today);
    BeforeIsLess(d, Cutoff(today));
    IsoOrder(d, Cutoff(today));
  }

  lemma CurrentKeysAreKept(log: seq<Call>, now: Date, prefix: string, key: string, today: Date)
    requires UpTo(log, now) && Valid(now) && Current(prefix, now) && Usable(today) && !Before(now, today)
    requires key in Tally(log) && prefix <= key
    ensures !TextLess(key, Iso(Cutoff(today)))
  {
    KeysAreLogged(log, key);
    var i :| 0 <= i < |log| && key == Iso(log[i].date);
    CurrentIsKept(prefix, now, today, log[i].date);
  }

  // ---------------------------------------------------------------- today and this month

  /** Today's and this month's totals, overall and by endpoint, are what counting the whole log gives, in
      whatever order its calls came, as long as none is dated later than now. */
  lemma {:induction false} TallyRefinesLog(log: seq<Call>, now: Date, prefix: string, what: Option<string>)
    requires UpTo(log, now) && Valid(now) && Current(prefix, now)
    ensures Total(Tally(log), prefix, what) == Count(log, prefix, what)
  {
    if log != [] {
      var rest, last := log[..|log| - 1], log[|log| - 1];
      TallyRefinesLog(rest, now, prefix, what);
      CountedTotal(Tally(rest), last, prefix, what);
      var days := Counted(Tally(rest), last.date, last.endpoint);
      forall key | key in KeysWith(days, prefix)
        ensures !TextLess(key, Iso(Cutoff(last.date)))
      {
        if key == Iso(last.date) {
          CurrentIsKept(prefix, now, last.date, last.date);
        } else {
          CurrentKeysAreKept(rest, now, prefix, key, last.date);
        }
      }
      PrunedTotal(days, Iso(Cutoff(last.date)), prefix, what);
    }
  }

  /** The projection never falls below the calls the log has for the month. */
  lemma ProjectionCoversLog(log: seq<Call>, now: Clock)
    requires Ticking(now) && UpTo(log, now.today)
    ensures Projected(Total(Tally(log), MonthText(now.today), None), now) >= Count(log, MonthText(now.today), None)
  {
    TallyRefinesLog(log, now.today, MonthText(now.today), None);
    ProjectionNotBelowTally(Count(log, MonthText(now.today), None), now);
  }

  // ---------------------------------------------------------------- every day kept

  lemma {:induction false} DaysNotBefore(log: seq<Call>, d: Date, what: Option<string>)
    requires InOrder(log) && log != [] && Valid(d)
    ensures Total(Tally(log), Iso(d), what)
         == if Before(d, Cutoff(log[|log| - 1].date)) then 0 else Count(log, Iso(d), what)
  {
    if Before(d, Cutoff(log[|log| - 1].date)) {
      OldDayIsGone(log, d, what);
    } else {
      var rest, last := log[..|log| - 1], log[|log| - 1];
      DayGains(rest, last, d, what);
      if rest != [] {
        DaysNotBefore(rest, d, what);
        CutoffMoves(rest[|rest| - 1].date, last.date, d);
      }
    }
  }

  /** With a clock that does not run backwards, each of the last 63 days has its full count and no other day any. */
  lemma DaysKept(log: seq<Call>, d: Date, what: Option<string>)
    requires InOrder(log) && log != [] && Valid(d)
    ensures Total(Tally(log), Iso(d), what)
         == if DayNumber(log[|log| - 1].date) - DayNumber(d) > 62 then 0 else Count(log, Iso(d), what)
  {
    DaysNotBefore(log, d, what);
    BeforeIsLess(d, Cutoff(log[|log| - 1].date));
  }

  lemma OldDayIsGone(log: seq<Call>, d: Date, what: Option<string>)
    requires InOrder(log) && log != [] && Valid(d) && Before(d, Cutoff(log[|log| - 1].date))
    ensures Total(Tally(log), Iso(d), what) == 0
  {
    forall key | key in Tally(log)
      ensures key !in KeysWith(Tally(log), Iso(d))
    {
      KeptKey(log, key);
      PrunedKey(key, d, Cutoff(log[|log| - 1].date));
    }
    assert KeysWith(Tally(log), Iso(d)) == {};
  }

  lemma PrunedKey(key: string, d: Date, cutoff: Date)
    requires Valid(d) && Valid(cutoff) && Before(d, cutoff) && |key| == 10 && !TextLess(key, Iso(cutoff))
    ensures !(Iso(d) <= key)
  {
    assert Iso(d) <= key ==> key == Iso(d);
    IsoOrder(d, cutoff);
  }

  lemma KeptKey(log: seq<Call>, key: string)
    requires Dated(log) && log != [] && key in Tally(log)
    ensures |key| == 10 && !TextLess(key, Iso(Cutoff(log[|log| - 1].date)))
  {
    KeysAreLogged(log, key);
  }

  /** A call on the same day or later adds what it should to every day it does not prune. */
  lemma DayGains(rest: seq<Call>, last: Call, d: Date, what: Option<string>)
    requires Dated(rest) && Usable(last.date) && Valid(d) && !Before(d, Cutoff(last.date))
    ensures Total(Recorded(Tally(rest), last.date, last.endpoint), Iso(d), what)
         == Total(Tally(rest), Iso(d), what) + if Counts(last, Iso(d), what) then 1 else 0
  {
    var days, cutoff := Counted(Tally(rest), last.date, last.endpoint), Cutoff(last.date);
    IsoOrder(d, cutoff);
    forall key | key in KeysWith(days, Iso(d))
      ensures key == Iso(d)
    {
      KeyLength(rest, last, key);
    }
    CountedTotal(Tally(rest), last, Iso(d), what);
    PrunedTotal(days, Iso(cutoff), Iso(d), what);
  }

  lemma CutoffMoves(earlier: Date, later: Date, d: Date)
    requires Usable(earlier) && Usable(later) && Valid(d) && !Before(later, earlier) && !Before(d, Cutoff(later))
    ensures !Before(d, Cutoff(earlier))
  {
    BeforeIsLess(later, earlier);
    BeforeIsLess(d, Cutoff(later));
    BeforeIsLess(d, Cutoff(earlier));
  }

  lemma KeyLength(rest: seq<Call>, last: Call, key: string)
    requires Dated(rest)
    requires Usable(last.date) && key in Counted(Tally(rest), last.date, last.endpoint)
    ensures |key| == 10
  {
    if key != Iso(last.date) {
      KeysAreLogged(rest, key);
    }
  }

  // ---------------------------------------------------------------- a day's own entry

  lemma TallyIsKeyedByDay(log: seq<Call>)
    requires Dated(log)
    ensures KeyedByDay(Tally(log))
  {
    forall key | key in Tally(log)
      ensures |key| == 10
    {
      KeptKey(log, key);
    }
  }

  /** What is stored for today, in all and by endpoint, is what counting the whole log gives. */
  lemma TodayRefinesLog(log: seq<Call>, now: Date, what: Option<string>)
    requires UpTo(log, now) && Valid(now)
    ensures Weight(DayOf(Tally(log), Iso(now)), what) == Count(log, Iso(now), what)
  {
    TallyIsKeyedByDay(log);
    DayIsTotal(Tally(log), now, what);
    TallyRefinesLog(log, now, Iso(now), what);
  }

  /** A counter that holds the log's tally reports for today, this month and each endpoint just what the log has. */
  method ReportRefinesLog(counter: ApiCallCounter, log: seq<Call>, now: Date)
    returns (today: nat, month: nat, byEndpoint: map<string, nat>)
    requires UpTo(log, now) && Valid(now) && counter.days == Tally(log)
    ensures today == Count(log, Iso(now), None)
    ensures month == Count(log, MonthText(now), None)
    ensures forall e :: Count(log, MonthText(now), Some(e)) == if e in byEndpoint then byEndpoint[e] else 0
  {
    today := counter.TodayCount(now);
    month := counter.MonthCount(now);
    byEndpoint := counter.MonthByEndpoint(now);
    TodayRefinesLog(log, now, None);
    TallyRefinesLog(log, now, MonthText(now), None);
    forall e
      ensures Count(log, MonthText(now), Some(e)) == if e in byEndpoint then byEndpoint[e] else 0
    {
      TallyRefinesLog(log, now, MonthText(now), Some(e));
      if e !in byEndpoint {
        SumNothing(counter.days, KeysWith(counter.days, MonthText(now)), e);
      }
    }
  }

  // ---------------------------------------------------------------- how many days

  /** The key is the text of one of the days from `first` to `last`. */
  ghost predicate Within(key: string, first: int, last: int) {
    exists d :: Valid(d) && key == Iso(d) && first <= DayNumber(d) <= last
  }

  lemma {:induction false} DaysWithin(keys: set<string>, first: int, last: int)
    requires (forall key :: key in keys ==> Within(key, first, last)) && first <= last + 1
    ensures |keys| <= last + 1 - first
    decreases last - first
  {
    if first == last + 1 {
      if key :| key in keys {
        assert Within(key, first, last);
      }
    } else if extra :| extra in keys && !Within(extra, first, last - 1) {
      forall key | key in keys - {extra}
        ensures Within(key, first, last - 1)
      {
        if !Within(key, first, last - 1) {
          LastDayOnly(key, extra, first, last);
        }
      }
      DaysWithin(keys - {extra}, first, last - 1);
    } else {
      DaysWithin(keys, first, last - 1);
    }
  }

  lemma LastDayOnly(key: string, other: string, first: int, last: int)
    requires Within(key, first, last) && !Within(key, first, last - 1)
    requires Within(other, first, last) && !Within(other, first, last - 1)
    ensures key == other
  {
    var d :| Valid(d) && key == Iso(d) && first <= DayNumber(d) <= last;
    var e :| Valid(e) && other == Iso(e) && first <= DayNumber(e) <= last;
    BeforeIsLess(d, e);
    BeforeIsLess(e, d);
  }

  lemma KeyWithin(log: seq<Call>, key: string)
    requires InOrder(log) && log != [] && key in Tally(log)
    ensures var today := log[|log| - 1].date; Within(key, DayNumber(today) - RETENTION_DAYS, DayNumber(today))
  {
    KeptKey(log, key);
    KeysAreLogged(log, key);
    var i :| 0 <= i < |log| && key == Iso(log[i].date);
    DayWithin(log[i].date, log[|log| - 1].date);
  }

  lemma DayWithin(d: Date, today: Date)
    requires Valid(d) && Usable(today) && !Before(today, d) && !TextLess(Iso(d), Iso(Cutoff(today)))
    ensures Within(Iso(d), DayNumber(today) - RETENTION_DAYS, DayNumber(today))
  {
    DayBetween(Cutoff(today), d, today);
  }

  lemma DayBetween(first: Date, d: Date, last: Date)
    requires Valid(first) && Valid(d) && Valid(last) && !Before(last, d) && !TextLess(Iso(d), Iso(first))
    ensures Within(Iso(d), DayNumber(first), DayNumber(last))
  {
    IsoOrder(d, first);
    BeforeIsLess(d, first);
    BeforeIsLess(last, d);
  }

  /** At most 63 days are kept. */
  lemma AtMost63Days(log: seq<Call>)
    requires InOrder(log)
    ensures |Tally(log).Keys| <= 63
  {
    if log != [] {
      var last := DayNumber(log[|log| - 1].date);
      forall key | key in Tally(log)
        ensures Within(key, last - RETENTION_DAYS, last)
      {
        KeyWithin(log, key);
      }
      DaysWithin(Tally(log).Keys, last - RETENTION_DAYS, last);
    }
  }
}
