/** The tally of cloud calls by day and endpoint, pruned as it goes, against the full log of calls. */
module ApiStats {
  import opened Bytes
  import opened Calendar
  import opened Rounding

  datatype DayCount = DayCount(total: nat, endpoints: map<string, nat>)

  const RETENTION_DAYS := 62

  /** Days the counter can be used on: 62 days earlier there must have been a calendar. */
  predicate Usable(today: Date) {
    Valid(today) && DayNumber(today) > RETENTION_DAYS
  }

  function Cutoff(today: Date): (d: Date)
    requires Usable(today)
    ensures Valid(d) && DayNumber(d) == DayNumber(today) - RETENTION_DAYS
  {
    DaysEarlierNumber(today, RETENTION_DAYS);
    DaysEarlier(today, RETENTION_DAYS)
  }

  function DayOf(days: map<string, DayCount>, key: string): DayCount {
    if key in days then days[key] else DayCount(0, map[])
  }

  function CallsTo(day: DayCount, endpoint: string): nat {
    if endpoint in day.endpoints then day.endpoints[endpoint] else 0
  }

  function Counted(days: map<string, DayCount>, today: Date, endpoint: string): map<string, DayCount>
    requires Valid(today)
  {
    var day := DayOf(days, Iso(today));
    days[Iso(today) := DayCount(day.total + 1, day.endpoints[endpoint := CallsTo(day, endpoint) + 1])]
  }

  function Pruned(days: map<string, DayCount>, cutoff: string): map<string, DayCount> {
    map key | key in days && !TextLess(key, cutoff) :: days[key]
  }

  function Recorded(days: map<string, DayCount>, today: Date, endpoint: string): map<string, DayCount>
    requires Usable(today)
  {
    Pruned(Counted(days, today, endpoint), Iso(Cutoff(today)))
  }

  // ---------------------------------------------------------------- totals

  /** What is counted: all calls, or those to one endpoint. */
  function Weight(day: DayCount, what: Option<string>): nat {
    match what
    case None => day.total
    case Some(endpoint) => CallsTo(day, endpoint)
  }

  ghost function Sum(days: map<string, DayCount>, keys: set<string>, what: Option<string>): nat
    requires keys <= days.Keys
  {
    if keys == {} then 0
    else
      var key :| key in keys;
      Weight(days[key], what) + Sum(days, keys - {key}, what)
  }

  function KeysWith(days: map<string, DayCount>, prefix: string): set<string> {
    set key | key in days && prefix <= key
  }

  /** The calls on the days whose ISO text starts with the prefix. */
  ghost function Total(days: map<string, DayCount>, prefix: string, what: Option<string>): nat {
    Sum(days, KeysWith(days, prefix), what)
  }

  lemma {:induction false} SumPick(days: map<string, DayCount>, keys: set<string>, key: string, what: Option<string>)
    requires key in keys && keys <= days.Keys
    ensures Sum(days, keys, what) == Weight(days[key], what) + Sum(days, keys - {key}, what)
  {
    var first :| first in keys && Sum(days, keys, what) == Weight(days[first], what) + Sum(days, keys - {first}, what);
    if first != key {
      SumPick(days, keys - {first}, key, what);
      SumPick(days, keys - {key}, first, what);
      assert keys - {first} - {key} == keys - {key} - {first};
    }
  }

  lemma {:induction false} SumSame(days: map<string, DayCount>, days': map<string, DayCount>, keys: set<string>,
          what: Option<string>)
    requires keys <= days.Keys && keys <= days'.Keys
    requires forall key :: key in keys ==> Weight(days[key], what) == Weight(days'[key], what)
    ensures Sum(days, keys, what) == Sum(days', keys, what)
  {
    if key :| key in keys {
      SumSame(days, days', keys - {key}, what);
      SumPick(days, keys, key, what);
      SumPick(days', keys, key, what);
    }
  }

  /** Every key is as long as an ISO date. */
  predicate KeyedByDay(days: map<string, DayCount>) {
    forall key :: key in days ==> |key| == 10
  }

  /** Then what is stored for a day is the sum over the keys that start with its text. */
  lemma DayIsTotal(days: map<string, DayCount>, d: Date, what: Option<string>)
    requires KeyedByDay(days) && Valid(d)
    ensures Weight(DayOf(days, Iso(d)), what) == Total(days, Iso(d), what)
  {
    assert forall key :: key in days && Iso(d) <= key ==> key == Iso(d);
    if Iso(d) in days {
      assert KeysWith(days, Iso(d)) == {Iso(d)};
      SumPick(days, {Iso(d)}, Iso(d), what);
      assert {Iso(d)} - {Iso(d)} == {};
    } else {
      assert KeysWith(days, Iso(d)) == {};
    }
  }

  // ---------------------------------------------------------------- the counter

  class ApiCallCounter {
    var days: map<string, DayCount>

    constructor ()
      ensures days == map[]
    {
      days := map[];
    }

    /** One call to the endpoint, today. */
    method Record(endpoint: string, today: Date)
      requires Usable(today)
      modifies this
      ensures days == Recorded(old(days), today, endpoint)
    {
      var key := Iso(today);
      if key !in days {
        days := days[key := DayCount(0, map[])];
      }
      days := days[key := days[key].(total := days[key].total + 1)];
      var endpoints := days[key].endpoints;
      days := days[key := days[key].(endpoints := endpoints[endpoint := CallsTo(days[key], endpoint) + 1])];
      assert days == Counted(old(days), today, endpoint);
      Prune(today);
    }

    method Prune(today: Date)
      requires Usable(today)
      modifies this
      ensures days == Pruned(old(days), Iso(Cutoff(today)))
    {
      var cutoff := Iso(Cutoff(today));
      var stale := set key | key in days && TextLess(key, cutoff);
      ghost var all := stale;
      while stale != {}
        invariant stale <= all && days == map key | key in old(days) && key !in all - stale :: old(days)[key]
        decreases stale
      {
        var key :| key in stale;
        days := days - {key};
        stale := stale - {key};
      }
    }

    method TodayCount(today: Date) returns (n: nat)
      requires Valid(today)
      ensures n == DayOf(days, Iso(today)).total
      ensures KeyedByDay(days) ==> n == Total(days, Iso(today), None)
    {
      n := if Iso(today) in days then days[Iso(today)].total else 0;
      if KeyedByDay(days) {
        DayIsTotal(days, today, None);
      }
    }

    method MonthCount(today: Date) returns (n: nat)
      requires Valid(today)
      ensures n == Total(days, MonthText(today), None)
    {
      var prefix := Iso(today)[..8];
      var rest := days.Keys;
      n := 0;
      while rest != {}
        invariant rest <= days.Keys
        invariant n == Sum(days, KeysWith(days, prefix) - rest, None)
        decreases rest
      {
        var key :| key in rest;
        ghost var done := KeysWith(days, prefix) - rest;
        rest := rest - {key};
        if prefix <= key {
          n := n + days[key].total;
          assert KeysWith(days, prefix) - rest == done + {key};
          SumPick(days, done + {key}, key, None);
          assert done + {key} - {key} == done;
        } else {
          assert KeysWith(days, prefix) - rest == done;
        }
      }
      assert KeysWith(days, prefix) - rest == KeysWith(days, prefix);
    }

    /** One day's calls added to the month's totals, endpoint by endpoint. */
    method AddDay(totals: map<string, nat>, day: DayCount) returns (sums: map<string, nat>)
      ensures sums.Keys == totals.Keys + day.endpoints.Keys
      ensures forall e :: e in sums ==> sums[e] == (if e in totals then totals[e] else 0) + CallsTo(day, e)
    {
      sums := totals;
      var rest := day.endpoints.Keys;
      while rest != {}
        invariant rest <= day.endpoints.Keys && sums.Keys == totals.Keys + (day.endpoints.Keys - rest)
        invariant forall e :: e in sums ==>
                    sums[e] == (if e in totals then totals[e] else 0) + if e in rest then 0 else CallsTo(day, e)
        decreases rest
      {
        var e :| e in rest;
        sums := sums[e := (if e in sums then sums[e] else 0) + day.endpoints[e]];
        rest := rest - {e};
      }
    }

    method MonthByEndpoint(today: Date) returns (totals: map<string, nat>)
      requires Valid(today)
      ensures forall e :: e in totals <==>
                exists key :: key in KeysWith(days, MonthText(today)) && e in days[key].endpoints
      ensures forall e :: e in totals ==> totals[e] == Total(days, MonthText(today), Some(e))
    {
      var prefix := Iso(today)[..8];
      var rest := days.Keys;
      totals := map[];
      while rest != {}
        invariant rest <= days.Keys
        invariant forall e :: e in totals <==>
                    exists key :: key in KeysWith(days, prefix) - rest && e in days[key].endpoints
        invariant forall e :: e in totals ==> totals[e] == Sum(days, KeysWith(days, prefix) - rest, Some(e))
        decreases rest
      {
        var key :| key in rest;
        ghost var done, before := KeysWith(days, prefix) - rest, totals;
        rest := rest - {key};
        if prefix <= key {
          totals := AddDay(totals, days[key]);
          assert KeysWith(days, prefix) - rest == done + {key};
          AddedDay(days, done, key, before, totals);
        } else {
          assert KeysWith(days, prefix) - rest == done;
        }
      }
      assert KeysWith(days, prefix) - rest == KeysWith(days, prefix);
    }

    method ProjectedMonthCount(now: Clock) returns (n: int)
      requires Ticking(now)
      ensures n == Projected(Total(days, MonthText(now.today), None), now)
    {
      var count := MonthCount(now.today);
      n := Projected(count, now);
    }
  }

  /** The totals by endpoint of some days, and of those days and one more. */
  lemma AddedDay(days: map<string, DayCount>, done: set<string>, key: string, totals: map<string, nat>,
          sums: map<string, nat>)
    requires done <= days.Keys && key in days && key !in done
    requires forall e :: e in totals <==> exists k :: k in done && e in days[k].endpoints
    requires forall e :: e in totals ==> totals[e] == Sum(days, done, Some(e))
    requires sums.Keys == totals.Keys + days[key].endpoints.Keys
    requires forall e :: e in sums ==> sums[e] == (if e in totals then totals[e] else 0) + CallsTo(days[key], e)
    ensures forall e :: e in sums ==> sums[e] == Sum(days, done + {key}, Some(e))
  {
    forall e | e in sums
      ensures sums[e] == Sum(days, done + {key}, Some(e))
    {
      SumPick(days, done + {key}, key, Some(e));
      assert done + {key} - {key} == done;
      if e !in totals {
        SumNothing(days, done, e);
      }
    }
  }

  lemma {:induction false} SumNothing(days: map<string, DayCount>, keys: set<string>, endpoint: string)
    requires keys <= days.Keys && forall key :: key in keys ==> endpoint !in days[key].endpoints
    ensures Sum(days, keys, Some(endpoint)) == 0
  {
    if key :| key in keys {
      SumNothing(days, keys - {key}, endpoint);
      SumPick(days, keys, key, Some(endpoint));
    }
  }

  // ---------------------------------------------------------------- the projection

  datatype Clock = Clock(today: Date, hour: int, minute: int)

  predicate Ticking(now: Clock) {
    Usable(now.today) && 0 <= now.hour < 24 && 0 <= now.minute < 60
  }

  function ElapsedDays(now: Clock): (days: real)
    requires Ticking(now)
    ensures 0.0 <= days < now.today.day as real
  {
    (now.today.day - 1) as real + (now.hour * 3600 + now.minute * 60) as real / 86400.0
  }

  /** The month's total at the rate so far, once a quarter of a day has passed. */
  function Projected(count: nat, now: Clock): int
    requires Ticking(now)
  {
    if ElapsedDays(now) < 0.25 then count
    else Round(Ratio(count, MonthLength(now.today.year, now.today.month), ElapsedDays(now)))
  }

  function Ratio(count: nat, length: int, gone: real): (x: real)
    requires gone > 0.0
    ensures x * gone == count as real * length as real
  {
    count as real * length as real / gone
  }

  lemma GoneWithinMonth(now: Clock)
    requires Ticking(now)
    ensures ElapsedDays(now) <= MonthLength(now.today.year, now.today.month) as real
  {
  }

  lemma RatioNotBelow(count: nat, length: int, gone: real)
    requires 0.0 < gone <= length as real
    ensures Ratio(count, length, gone) >= count as real
  {
    var x := Ratio(count, length, gone);
    assert count as real * length as real >= count as real * gone;
    assert x < count as real ==> x * gone < count as real * gone;
  }

  /** The projection is never below the tally it starts from. */
  lemma ProjectionNotBelowTally(count: nat, now: Clock)
    requires Ticking(now)
    ensures Projected(count, now) >= count
  {
    if ElapsedDays(now) >= 0.25 {
      GoneWithinMonth(now);
      var length := MonthLength(now.today.year, now.today.month);
      RatioNotBelow(count, length, ElapsedDays(now));
      RoundKeepsOrder(count as real, Ratio(count, length, ElapsedDays(now)));
      RoundWhole(count);
    }
  }

  /** The minutes of the month gone by. */
  function MinutesGone(now: Clock): int {
    (now.today.day - 1) * 1440 + now.hour * 60 + now.minute
  }

  lemma NearestToRatio(count: nat, length: int, gone: int, x: real)
    requires x > 0.0 && x * 1440.0 == gone as real
    ensures -gone <= 2 * (Round(Ratio(count, length, x)) * gone - count * length * 1440) <= gone
  {
    assert (count * length) as real == count as real * length as real;
    NearestRatio(Round(Ratio(count, length, x)), count * length, gone, x, Ratio(count, length, x));
  }

  /** In the first six hours of a month the projection is the tally; later it is, to the nearest whole number, to the
      tally as the month is to what has gone of it. */
  lemma ProjectionIsProportional(count: nat, now: Clock)
    requires Ticking(now)
    ensures MinutesGone(now) < 360 ==> Projected(count, now) == count
    ensures MinutesGone(now) >= 360 ==>
              var length, gone := MonthLength(now.today.year, now.today.month), MinutesGone(now);
              -gone <= 2 * (Projected(count, now) * gone - count * length * 1440) <= gone
  {
    ElapsedInMinutes(now);
    if MinutesGone(now) >= 360 {
      NearestToRatio(count, MonthLength(now.today.year, now.today.month), MinutesGone(now), ElapsedDays(now));
    }
  }

  lemma ElapsedInMinutes(now: Clock)
    requires Ticking(now)
    ensures ElapsedDays(now) * 1440.0 == MinutesGone(now) as real
  {
    assert (now.hour * 3600 + now.minute * 60) as real / 86400.0 * 1440.0 == (now.hour * 60 + now.minute) as real;
  }

  lemma NearestRatio(n: int, c: int, gone: int, x: real, q: real)
    requires x > 0.0 && x * 1440.0 == gone as real && q * x == c as real && -0.5 <= n as real - q <= 0.5
    ensures -gone <= 2 * (n * gone - c * 1440) <= gone
  {
    Scale(n as real, c as real, x, gone as real, q);
    assert (n * gone) as real == n as real * gone as real;
    assert (c * 1440) as real == c as real * 1440.0;
  }

  lemma Scale(n: real, c: real, x: real, m: real, q: real)
    requires x > 0.0 && m == x * 1440.0 && q * x == c && -0.5 <= n - q <= 0.5
    ensures n * m - c * 1440.0 <= 0.5 * m
    ensures n * m - c * 1440.0 + 0.5 * m >= 0.0
  {
    assert q * m == c * 1440.0;
    Spread(n, q, m);
    Within(n - q, m);
  }

  lemma Spread(n: real, q: real, m: real)
    ensures n * m == (n - q) * m + q * m
  {
  }

  lemma Within(e: real, m: real)
    requires m >= 0.0 && -0.5 <= e <= 0.5
    ensures e * m <= 0.5 * m && e * m + 0.5 * m >= 0.0
  {
    NotNegative(0.5 - e, m);
    NotNegative(0.5 + e, m);
    Spread(0.5, e, m);
    Spread(0.5 + e, e, m);
  }

  lemma NotNegative(a: real, b: real)
    requires a >= 0.0 && b >= 0.0
    ensures a * b >= 0.0
  {
  }
}
