/** The other side of the estimate: months of regular polling that make as many calls as it says. */
module EstimateReached {
  import opened Bytes
  import opened Division
  import opened Rounding
  import opened LockStore
  import opened LockCoordinator
  import opened CoordinatorRuns
  import opened PollOutcome
  import opened CallBudget
  import opened UsageEstimate

  // ---------------------------------------------------------------- regular polling

  /** The cloud answers whatever it is asked, and nothing is heard over Bluetooth. */
  function Answering(doorSensor: bool): Answers {
    Answers(None, Answer(Details(0, doorSensor, None, None)), Answer(Some(SensorReply(Some(100)))),
            Answer(StateReply(Locked, NoReading)), Answer(0), Answer([]), Answer([]), Answer([]))
  }

  /** So many polls, `gap` apart, the first at time 0. */
  function Polls(n: nat, gap: Time, confirmed: bool, answers: Answers): (es: seq<Event>)
    ensures |es| == n
  {
    if n == 0 then [] else Polls(n - 1, gap, confirmed, answers) + [Poll((n - 1) * gap, confirmed, answers)]
  }

  /** A lock of which nothing is known yet. */
  function NewLock(doorSensor: bool): Lock {
    Lock(LockState(0, doorSensor, None, None, None, None, None, [], None, None, None, None), NO_GATES, NOTHING, [], [])
  }

  function RegularMonth(o: Options, gateway: bool, sensor: bool, gap: Time, confirmed: bool): LockMonth
    requires gap > 0
  {
    LockMonth(Config(true, gateway, 3600 * SlowHours(o), WebhookOnly(o)), NewLock(sensor),
              Polls(MONTH / gap + 1, gap, confirmed, Answering(sensor)), 0)
  }

  lemma {:induction false} PollAt(n: nat, gap: Time, confirmed: bool, answers: Answers, i: nat)
    requires i < n
    ensures Polls(n, gap, confirmed, answers)[i] == Poll(i * gap, confirmed, answers)
  {
    if i < n - 1 {
      PollAt(n - 1, gap, confirmed, answers, i);
    }
  }

  lemma AnsweringSuffices(cfg: Config, l: Lock, now: Time, confirmed: bool, doorSensor: bool)
    requires cfg.connectable
    ensures PollSucceeds(cfg, l, now, confirmed, Answering(doorSensor))
  {
    var parts := Parts(cfg, l, now, confirmed, Answering(doorSensor));
    PollFollowsPlan(cfg, l, now, confirmed, Answering(doorSensor));
    EachPartAnswered(cfg, l, now, confirmed, doorSensor);
    AllPartsAnswered(parts);
  }

  lemma EachPartAnswered(cfg: Config, l: Lock, now: Time, confirmed: bool, doorSensor: bool)
    ensures var parts := Parts(cfg, l, now, confirmed, Answering(doorSensor));
            forall i :: 0 <= i < |parts| ==> AllAnswered(parts[i])
  {
    var due := SlowDue(cfg, l.gates.codes, now);
    AllOfTwo(If(due, Passcodes, true), If(due, Ekeys, true));
  }

  lemma {:induction false} AllPartsAnswered(parts: seq<seq<Planned>>)
    requires forall i :: 0 <= i < |parts| ==> AllAnswered(parts[i])
    ensures AllAnswered(Joined(parts))
  {
    if parts != [] {
      AllPartsAnswered(parts[..|parts| - 1]);
      AllOfTwo(Joined(parts[..|parts| - 1]), parts[|parts| - 1]);
    }
  }

  lemma {:induction false} RegularIsPaced(n: nat, gap: Time, confirmed: bool, answers: Answers, interval: Time,
          length: Time)
    requires gap > 0 && interval <= gap && 0 <= length && (n > 0 ==> (n - 1) * gap <= length)
    ensures Paced(Polls(n, gap, confirmed, answers), interval, 0, length)
    ensures LastPoll(Polls(n, gap, confirmed, answers)) == if n == 0 then None else Some((n - 1) * gap)
  {
    if n > 0 {
      var es := Polls(n, gap, confirmed, answers);
      assert (n - 1) * gap == (n - 2) * gap + gap;
      RegularIsPaced(n - 1, gap, confirmed, answers, interval, length);
      assert es[..|es| - 1] == Polls(n - 1, gap, confirmed, answers);
    }
  }

  lemma {:induction false} RegularSucceeds(cfg: Config, l: Lock, n: nat, gap: Time, confirmed: bool, doorSensor: bool)
    requires cfg.connectable
    ensures Succeeding(cfg, l, Polls(n, gap, confirmed, Answering(doorSensor)))
  {
    if n > 0 {
      var es := Polls(n, gap, confirmed, Answering(doorSensor));
      RegularSucceeds(cfg, l, n - 1, gap, confirmed, doorSensor);
      assert es[..|es| - 1] == Polls(n - 1, gap, confirmed, Answering(doorSensor));
      AnsweringSuffices(cfg, Run(cfg, l, es[..|es| - 1]), (n - 1) * gap, confirmed, doorSensor);
    }
  }

  lemma RegularIsScheduled(o: Options, gateway: bool, sensor: bool, gap: Time, confirmed: bool)
    requires Configured(o) && 60 * PollMinutes(o) <= gap
    ensures var m := RegularMonth(o, gateway, sensor, gap, confirmed);
            Scheduled(m.cfg, m.lock, m.events, 60 * PollMinutes(o), m.start, MONTH)
  {
    var m := RegularMonth(o, gateway, sensor, gap, confirmed);
    assert MONTH / gap * gap <= MONTH;
    RegularIsPaced(MONTH / gap + 1, gap, confirmed, Answering(sensor), 60 * PollMinutes(o), MONTH);
    RegularSucceeds(m.cfg, m.lock, MONTH / gap + 1, gap, confirmed, sensor);
  }

  predicate AnswersAlike(es: seq<Event>, confirmed: bool, sensor: bool) {
    forall i :: 0 <= i < |es| ==>
      es[i].Poll? && es[i].webhookConfirmed == confirmed && es[i].answers == Answering(sensor)
  }

  lemma RegularAnswers(n: nat, gap: Time, confirmed: bool, sensor: bool)
    ensures AnswersAlike(Polls(n, gap, confirmed, Answering(sensor)), confirmed, sensor)
  {
    forall i | 0 <= i < n
      ensures Polls(n, gap, confirmed, Answering(sensor))[i] == Poll(i * gap, confirmed, Answering(sensor))
    {
      PollAt(n, gap, confirmed, Answering(sensor), i);
    }
  }

  lemma AlikeIsOrdinary(m: LockMonth, o: Options, confirmed: bool, sensor: bool)
    requires Configured(o) && AnswersAlike(m.events, confirmed, sensor) && HasSensor(m) == sensor && m.lock.calls == []
    requires m.cfg.slowInterval == 3600 * SlowHours(o) && m.cfg.webhookOnly == WebhookOnly(o)
    requires Scheduled(m.cfg, m.lock, m.events, 60 * PollMinutes(o), m.start, MONTH)
    ensures Ordinary(m, o, confirmed)
  {
  }

  /** Regular polling, at the configured interval or a longer one, is ordinary. */
  lemma RegularIsOrdinary(o: Options, gateway: bool, sensor: bool, gap: Time, confirmed: bool)
    requires Configured(o) && 60 * PollMinutes(o) <= gap
    ensures Ordinary(RegularMonth(o, gateway, sensor, gap, confirmed), o, confirmed)
  {
    RegularIsScheduled(o, gateway, sensor, gap, confirmed);
    RegularAnswers(MONTH / gap + 1, gap, confirmed, sensor);
    AlikeIsOrdinary(RegularMonth(o, gateway, sensor, gap, confirmed), o, confirmed, sensor);
  }

  // ---------------------------------------------------------------- every so many polls

  /** Of `n` polls every `p`th one, starting with the first. */
  function Every(p: int, n: nat): nat
    requires p > 0
  {
    if n == 0 then 0 else (n - 1) / p + 1
  }

  /** The last of them. */
  function LastOf(p: int, n: nat): int
    requires p > 0 && n > 0
  {
    (n - 1) / p * p
  }

  lemma OneMorePoll(p: int, n: nat)
    requires p > 0 && n > 0
    ensures 0 < n - LastOf(p, n) <= p
    ensures n - LastOf(p, n) == p ==> Every(p, n + 1) == Every(p, n) + 1 && LastOf(p, n + 1) == n
    ensures n - LastOf(p, n) < p ==> Every(p, n + 1) == Every(p, n) && LastOf(p, n + 1) == LastOf(p, n)
  {
    var q := (n - 1) / p;
    if n - q * p == p {
      DivideIs(n, p, q + 1, 0);
    } else {
      DivideIs(n, p, q, n - q * p);
    }
  }

  /** After so many polls is something as old as it has to be to be fetched again: `p` polls are the fewest that take at
      least `age`. */
  predicate TakesPolls(p: int, gap: Time, age: Time) {
    p > 0 && gap > 0 && p * gap >= age && (p - 1) * gap < age
  }

  lemma OldEnough(p: int, gap: Time, age: Time, polls: int)
    requires TakesPolls(p, gap, age) && 0 < polls <= p
    ensures polls * gap >= age <==> polls == p
  {
    if polls < p {
      assert polls * gap <= (p - 1) * gap;
    }
  }

  // ---------------------------------------------------------------- what regular polling asks

  /** The run so far. */
  function After(cfg: Config, sensor: bool, n: nat, gap: Time, confirmed: bool): Lock {
    Run(cfg, NewLock(sensor), Polls(n, gap, confirmed, Answering(sensor)))
  }

  lemma AfterOneMore(cfg: Config, sensor: bool, n: nat, gap: Time, confirmed: bool)
    ensures After(cfg, sensor, n + 1, gap, confirmed)
         == PollStep(cfg, After(cfg, sensor, n, gap, confirmed), n * gap, confirmed, Answering(sensor))
  {
    var es := Polls(n + 1, gap, confirmed, Answering(sensor));
    assert es[..|es| - 1] == Polls(n, gap, confirmed, Answering(sensor));
  }

  lemma AfterNone(cfg: Config, sensor: bool, gap: Time, confirmed: bool)
    ensures After(cfg, sensor, 0, gap, confirmed) == NewLock(sensor)
  {
  }

  /** Something fetched every `p`th poll, the last time at the instant the gate tells. */
  predicate FetchedEvery(times: nat, gate: Option<Time>, p: int, n: nat, gap: Time)
    requires p > 0
  {
    times == Every(p, n) && gate == if n == 0 then None else Some(LastOf(p, n) * gap)
  }

  lemma FetchedNext(times: nat, gate: Option<Time>, p: int, n: nat, gap: Time, age: Time, due: bool)
    requires TakesPolls(p, gap, age) && FetchedEvery(times, gate, p, n, gap)
    requires due <==> gate.None? || n * gap - gate.value >= age
    ensures FetchedEvery(if due then times + 1 else times, if due then Some(n * gap) else gate, p, n + 1, gap)
  {
    if n == 0 {
      DivideIs(0, p, 0, 0);
    } else {
      OneMorePoll(p, n);
      OldEnough(p, gap, age, n - LastOf(p, n));
      assert n * gap - LastOf(p, n) * gap == (n - LastOf(p, n)) * gap;
    }
  }

  lemma {:induction false} SlowFetched(cfg: Config, sensor: bool, n: nat, gap: Time, confirmed: bool, p: int,
          endpoint: Endpoint)
    requires cfg.connectable && IsSlow(endpoint) && (endpoint.LockGateways? ==> cfg.hasGateway)
    requires TakesPolls(p, gap, cfg.slowInterval)
    ensures var l := After(cfg, sensor, n, gap, confirmed);
            FetchedEvery(|Asked(l.calls, endpoint)|, GateOf(l.gates, endpoint), p, n, gap)
  {
    if n > 0 {
      var l, now := After(cfg, sensor, n - 1, gap, confirmed), (n - 1) * gap;
      SlowFetched(cfg, sensor, n - 1, gap, confirmed, p, endpoint);
      AfterOneMore(cfg, sensor, n - 1, gap, confirmed);
      AnsweringSuffices(cfg, l, now, confirmed, sensor);
      PollAsks(cfg, l, now, confirmed, Answering(sensor), endpoint);
      FetchedNext(|Asked(l.calls, endpoint)|, GateOf(l.gates, endpoint), p, n - 1, gap, cfg.slowInterval,
                  Due(GateOf(l.gates, endpoint), now, cfg.slowInterval));
    }
  }

  lemma StateAskedNext(cfg: Config, sensor: bool, n: nat, gap: Time, confirmed: bool)
    requires cfg.connectable && !(cfg.webhookOnly && confirmed)
    ensures |Asked(After(cfg, sensor, n + 1, gap, confirmed).calls, OpenState)|
         == |Asked(After(cfg, sensor, n, gap, confirmed).calls, OpenState)| + 1
  {
    var l := After(cfg, sensor, n, gap, confirmed);
    AnsweringSuffices(cfg, l, n * gap, confirmed, sensor);
    SensorAndStateAsked(cfg, l, n * gap, confirmed, Answering(sensor));
    AfterOneMore(cfg, sensor, n, gap, confirmed);
  }

  lemma {:induction false} StateAsked(cfg: Config, sensor: bool, n: nat, gap: Time, confirmed: bool)
    requires cfg.connectable && !(cfg.webhookOnly && confirmed)
    ensures |Asked(After(cfg, sensor, n, gap, confirmed).calls, OpenState)| == n
  {
    if n == 0 {
      AfterNone(cfg, sensor, gap, confirmed);
    } else {
      StateAsked(cfg, sensor, n - 1, gap, confirmed);
      StateAskedNext(cfg, sensor, n - 1, gap, confirmed);
    }
  }

  /** When a sensor that is there was last fetched. */
  function LastSensor(l: Lock): Option<Time> {
    if l.data.sensor.Some? then l.data.sensor.value.lastFetched else None
  }

  lemma {:induction false} SensorFetched(cfg: Config, n: nat, gap: Time, confirmed: bool, p: int)
    requires cfg.connectable && TakesPolls(p, gap, DAY + 1)
    ensures var l := After(cfg, true, n, gap, confirmed);
            && l.data.doorSensor
            && FetchedEvery(|Asked(l.calls, DoorSensor)|, LastSensor(l), p, n, gap)
            && (n == 0 ==> l == NewLock(true))
            && (n > 0 ==> l.data.sensor.Some? && l.data.sensor.value.battery == Some(100))
  {
    if n > 0 {
      var l, now := After(cfg, true, n - 1, gap, confirmed), (n - 1) * gap;
      SensorFetched(cfg, n - 1, gap, confirmed, p);
      AfterOneMore(cfg, true, n - 1, gap, confirmed);
      AnsweringSuffices(cfg, l, now, confirmed, true);
      SensorAndStateAsked(cfg, l, now, confirmed, Answering(true));
      PollPublishes(cfg, l, now, confirmed, Answering(true));
      FetchedNext(|Asked(l.calls, DoorSensor)|, LastSensor(l), p, n - 1, gap, DAY + 1, SensorDue(l, now));
    }
  }

  // ---------------------------------------------------------------- the parts of the estimate

  lemma OneMoreThanWhole(length: Time, gap: Time)
    requires gap > 0 && length >= 0
    ensures length as real / gap as real < (length / gap + 1) as real
  {
    var q := length / gap + 1;
    assert q * gap > length;
    assert (q * gap) as real == q as real * gap as real;
    DivideAbove(q as real, length as real, gap as real);
  }

  lemma DivideAbove(q: real, x: real, y: real)
    requires y > 0.0 && q * y > x
    ensures q > x / y
  {
    var d := x / y;
    assert d * y == x;
    assert d >= q ==> d * y >= q * y;
  }

  /** One more than a month's whole intervals, in the estimate's terms. */
  lemma MonthAndOneMore(o: Options)
    requires Configured(o)
    ensures PollsPerMonth(o) <= (MONTH / (60 * PollMinutes(o)) + 1) as real
    ensures SlowFetchesPerMonth(o) <= (MONTH / (3600 * SlowHours(o)) + 1) as real
    ensures 24.0 * 60.0 / GatewayMinutes(o) as real * DAYS_PER_MONTH <= (MONTH / (60 * GatewayMinutes(o)) + 1) as real
  {
    OneMoreThanWhole(MONTH, 60 * PollMinutes(o));
    OneMoreThanWhole(MONTH, 3600 * SlowHours(o));
    OneMoreThanWhole(MONTH, 60 * GatewayMinutes(o));
    Minutes(PollMinutes(o));
    Minutes(GatewayMinutes(o));
    Hours(SlowHours(o));
  }

  lemma MonthIsAfter(o: Options, gateway: bool, sensor: bool, gap: Time, confirmed: bool)
    requires gap > 0
    ensures var m := RegularMonth(o, gateway, sensor, gap, confirmed);
            CallsOf(m) == After(m.cfg, sensor, MONTH / gap + 1, gap, confirmed).calls
  {
  }

  lemma PartsOfOne(o: Options, m: LockMonth, confirmed: bool)
    requires Configured(o) && !ManualSync(o)
    ensures var exact := Exact(o, One(m), confirmed);
            && exact.lockState == (if WebhookOnly(o) && confirmed then 0.0 else PollsPerMonth(o))
            && exact.doorSensor == (if HasSensor(m) then 30.44 else 0.0)
  {
  }

  lemma StateCallsOfRegularMonth(o: Options, gateway: bool, sensor: bool, gap: Time, confirmed: bool)
    requires gap > 0 && !(WebhookOnly(o) && confirmed)
    ensures |Asked(CallsOf(RegularMonth(o, gateway, sensor, gap, confirmed)), OpenState)| == MONTH / gap + 1
  {
    MonthIsAfter(o, gateway, sensor, gap, confirmed);
    StateAsked(RegularMonth(o, gateway, sensor, gap, confirmed).cfg, sensor, MONTH / gap + 1, gap, confirmed);
  }

  /** Polls at the configured interval ask for the state as often as the estimate says; with confirmed webhooks instead,
      the estimate has none. */
  lemma StatePartIsReached(o: Options, gateway: bool, sensor: bool, confirmed: bool)
    requires Configured(o) && !ManualSync(o)
    ensures var m := RegularMonth(o, gateway, sensor, 60 * PollMinutes(o), confirmed);
            && Ordinary(m, o, confirmed)
            && (if WebhookOnly(o) && confirmed then Exact(o, One(m), confirmed).lockState == 0.0
                else Exact(o, One(m), confirmed).lockState <= |Asked(CallsOf(m), OpenState)| as real)
  {
    var m := RegularMonth(o, gateway, sensor, 60 * PollMinutes(o), confirmed);
    RegularIsOrdinary(o, gateway, sensor, 60 * PollMinutes(o), confirmed);
    PartsOfOne(o, m, confirmed);
    if !(WebhookOnly(o) && confirmed) {
      StateCallsOfRegularMonth(o, gateway, sensor, 60 * PollMinutes(o), confirmed);
      MonthAndOneMore(o);
    }
  }

  /** How often regular polling makes a slow call: every `p`th poll, if that is how many take a slow interval. */
  lemma SlowCallsOfRegularMonth(o: Options, gateway: bool, sensor: bool, gap: Time, confirmed: bool, p: int,
          endpoint: Endpoint)
    requires Configured(o) && IsSlow(endpoint) && (endpoint.LockGateways? ==> gateway)
    requires TakesPolls(p, gap, 3600 * SlowHours(o))
    ensures |Asked(CallsOf(RegularMonth(o, gateway, sensor, gap, confirmed)), endpoint)| == MONTH / gap / p + 1
  {
    var m := RegularMonth(o, gateway, sensor, gap, confirmed);
    MonthIsAfter(o, gateway, sensor, gap, confirmed);
    SlowFetched(m.cfg, sensor, MONTH / gap + 1, gap, confirmed, p, endpoint);
  }

  predicate SlowPartsReached(o: Options, m: LockMonth, confirmed: bool)
    requires Configured(o)
  {
    var exact, calls := Exact(o, One(m), confirmed), CallsOf(m);
    && exact.lockDetail
       <= (|Asked(calls, LockDetail)| + |Asked(calls, PassageMode)| + |Asked(calls, LockGateways)|) as real
    && exact.credentials <= (|Asked(calls, Passcodes)| + |Asked(calls, Ekeys)|) as real
  }

  lemma SlowPartsOfRegularMonth(o: Options, gateway: bool, sensor: bool, gap: Time, confirmed: bool, p: int)
    requires Configured(o) && !ManualSync(o) && TakesPolls(p, gap, 3600 * SlowHours(o))
    requires SlowFetchesPerMonth(o) <= (MONTH / gap / p + 1) as real
    ensures SlowPartsReached(o, RegularMonth(o, gateway, sensor, gap, confirmed), confirmed)
  {
    SlowCallsOfRegularMonth(o, gateway, sensor, gap, confirmed, p, LockDetail);
    SlowCallsOfRegularMonth(o, gateway, sensor, gap, confirmed, p, PassageMode);
    SlowCallsOfRegularMonth(o, gateway, sensor, gap, confirmed, p, Passcodes);
    SlowCallsOfRegularMonth(o, gateway, sensor, gap, confirmed, p, Ekeys);
    if gateway {
      SlowCallsOfRegularMonth(o, gateway, sensor, gap, confirmed, p, LockGateways);
    }
    SlowParts(o, RegularMonth(o, gateway, sensor, gap, confirmed), confirmed, MONTH / gap / p + 1);
  }

  /** With polls a slow interval apart, if that is no less than the interval configured, every slow call is made as
      often as the estimate says. */
  lemma SlowPartsAreReached(o: Options, gateway: bool, sensor: bool, confirmed: bool)
    requires Configured(o) && !ManualSync(o) && 60 * PollMinutes(o) <= 3600 * SlowHours(o)
    ensures var m := RegularMonth(o, gateway, sensor, 3600 * SlowHours(o), confirmed);
            Ordinary(m, o, confirmed) && SlowPartsReached(o, m, confirmed)
  {
    RegularIsOrdinary(o, gateway, sensor, 3600 * SlowHours(o), confirmed);
    MonthAndOneMore(o);
    SlowPartsOfRegularMonth(o, gateway, sensor, 3600 * SlowHours(o), confirmed, 1);
  }

  lemma SlowParts(o: Options, m: LockMonth, confirmed: bool, n: nat)
    requires Configured(o) && !ManualSync(o) && SlowFetchesPerMonth(o) <= n as real
    ensures Exact(o, One(m), confirmed).lockDetail <= (2 * n + if m.cfg.hasGateway then n else 0) as real
    ensures Exact(o, One(m), confirmed).credentials <= (2 * n) as real
  {
    var slow := SlowFetchesPerMonth(o);
    assert (One(m).locks * 2 + One(m).withGateway) as real * slow
          == 2.0 * slow + if m.cfg.hasGateway then slow else 0.0;
    assert (One(m).locks * 2) as real * slow == 2.0 * slow;
  }

  /** A month in which a slow call is made as often as the estimate says, less one. */
  ghost predicate SlowCallReached(o: Options, gateway: bool, sensor: bool, confirmed: bool, endpoint: Endpoint,
                                  m: LockMonth)
    requires Configured(o)
  {
    && Ordinary(m, o, confirmed) && m.cfg.hasGateway == gateway && HasSensor(m) == sensor
    && SlowFetchesPerMonth(o) - 1.0 <= |Asked(CallsOf(m), endpoint)| as real
  }

  /** The estimate takes no account of the poll interval in its slow part: when that is longer than the slow interval, a
      slow call is made once a poll at most. So there is a month that reaches the estimate for it, less one, if and only
      if polls are no longer apart than slow fetches, or by so little that the polls of a month are enough. */
  lemma SlowCallIsReachedIff(o: Options, gateway: bool, sensor: bool, confirmed: bool, endpoint: Endpoint)
    requires Configured(o) && IsSlow(endpoint) && (endpoint.LockGateways? ==> gateway)
    ensures (exists m :: SlowCallReached(o, gateway, sensor, confirmed, endpoint, m))
       <==> 60 * PollMinutes(o) <= 3600 * SlowHours(o)
            || SlowFetchesPerMonth(o) <= (MONTH / (60 * PollMinutes(o)) + 2) as real
  {
    var polls, slow := 60 * PollMinutes(o), 3600 * SlowHours(o);
    MonthAndOneMore(o);
    if polls <= slow {
      RegularIsOrdinary(o, gateway, sensor, slow, confirmed);
      SlowCallsOfRegularMonth(o, gateway, sensor, slow, confirmed, 1, endpoint);
      var m := RegularMonth(o, gateway, sensor, slow, confirmed);
      assert SlowCallReached(o, gateway, sensor, confirmed, endpoint, m);
    } else if SlowFetchesPerMonth(o) <= (MONTH / polls + 2) as real {
      RegularIsOrdinary(o, gateway, sensor, polls, confirmed);
      SlowCallsOfRegularMonth(o, gateway, sensor, polls, confirmed, 1, endpoint);
      var m := RegularMonth(o, gateway, sensor, polls, confirmed);
      assert SlowCallReached(o, gateway, sensor, confirmed, endpoint, m);
    } else if m :| SlowCallReached(o, gateway, sensor, confirmed, endpoint, m) {
      SlowCallBudgetOfAnyPolls(m.cfg, m.lock, m.events, polls, m.start, MONTH, endpoint);
    }
  }

  /** With polls a day and a second apart a sensor is asked as often as the estimate says; a lock without one has no
      such part. */
  lemma SensorPartIsReached(o: Options, gateway: bool, sensor: bool, confirmed: bool)
    requires Configured(o) && !ManualSync(o)
    ensures var m := RegularMonth(o, gateway, sensor, DAY + 1, confirmed);
            && Ordinary(m, o, confirmed)
            && (if sensor then Exact(o, One(m), confirmed).doorSensor <= |Asked(CallsOf(m), DoorSensor)| as real
                else Exact(o, One(m), confirmed).doorSensor == 0.0)
  {
    RegularIsOrdinary(o, gateway, sensor, DAY + 1, confirmed);
    PartsOfOne(o, RegularMonth(o, gateway, sensor, DAY + 1, confirmed), confirmed);
    if sensor {
      SensorOfRegularMonth(o, gateway, DAY + 1, confirmed);
    }
  }

  lemma SensorOfRegularMonth(o: Options, gateway: bool, gap: Time, confirmed: bool)
    requires Configured(o) && 0 < gap
    ensures |Asked(CallsOf(RegularMonth(o, gateway, true, gap, confirmed)), DoorSensor)|
         == MONTH / gap / (DAY / gap + 1) + 1
  {
    var m, p := RegularMonth(o, gateway, true, gap, confirmed), DAY / gap + 1;
    assert (p - 1) * gap <= DAY < p * gap;
    MonthIsAfter(o, gateway, true, gap, confirmed);
    SensorFetched(m.cfg, MONTH / gap + 1, gap, confirmed, p);
  }

  predicate DailyInTime(o: Options) {
    PollMinutes(o) > 0 && (DAY / (60 * PollMinutes(o)) + 1) * (60 * PollMinutes(o)) * 29 <= MONTH
  }

  lemma TwentyNine(gap: Time)
    requires gap > 0 && (DAY / gap + 1) * gap * 29 <= MONTH
    ensures MONTH / gap / (DAY / gap + 1) >= 29
  {
    DivideTwice(MONTH, gap, DAY / gap + 1);
    AtLeast(MONTH, (DAY / gap + 1) * gap, 29);
  }

  lemma ThirtyAreNearly(o: Options, m: LockMonth, confirmed: bool, n: nat)
    requires Configured(o) && !ManualSync(o) && n >= 30
    ensures Exact(o, One(m), confirmed).doorSensor - 1.0 <= n as real
  {
    PartsOfOne(o, m, confirmed);
  }

  lemma ThirtyAsked(o: Options, gateway: bool, gap: Time, confirmed: bool)
    requires Configured(o) && gap > 0 && (DAY / gap + 1) * gap * 29 <= MONTH
    ensures |Asked(CallsOf(RegularMonth(o, gateway, true, gap, confirmed)), DoorSensor)| >= 30
  {
    SensorOfRegularMonth(o, gateway, gap, confirmed);
    TwentyNine(gap);
  }

  lemma SensorNearlyReached(o: Options, gateway: bool, confirmed: bool)
    requires Configured(o) && !ManualSync(o) && DailyInTime(o)
    ensures var m := RegularMonth(o, gateway, true, 60 * PollMinutes(o), confirmed);
            Exact(o, One(m), confirmed).doorSensor - 1.0 <= |Asked(CallsOf(m), DoorSensor)| as real
  {
    var m := RegularMonth(o, gateway, true, 60 * PollMinutes(o), confirmed);
    ThirtyAsked(o, gateway, 60 * PollMinutes(o), confirmed);
    ThirtyAreNearly(o, m, confirmed, |Asked(CallsOf(m), DoorSensor)|);
  }

  /** One month reaches all of a lock's parts, that of its sensor less one, if a slow interval is a whole number of
      polls and the first poll more than a day after another comes early enough. */
  lemma AllPartsAreReached(o: Options, gateway: bool, sensor: bool, confirmed: bool)
    requires Configured(o) && !ManualSync(o) && 60 * SlowHours(o) % PollMinutes(o) == 0 && (sensor ==> DailyInTime(o))
    ensures var m := RegularMonth(o, gateway, sensor, 60 * PollMinutes(o), confirmed);
            var exact, calls := Exact(o, One(m), confirmed), CallsOf(m);
            && Ordinary(m, o, confirmed) && SlowPartsReached(o, m, confirmed)
            && (!(WebhookOnly(o) && confirmed) ==> exact.lockState <= |Asked(calls, OpenState)| as real)
            && exact.doorSensor - 1.0 <= |Asked(calls, DoorSensor)| as real
  {
    StatePartIsReached(o, gateway, sensor, confirmed);
    MonthAndOneMore(o);
    WholePolls(o);
    SlowPartsOfRegularMonth(
      o, gateway, sensor, 60 * PollMinutes(o), confirmed, 60 * SlowHours(o) / PollMinutes(o));
    if sensor {
      SensorNearlyReached(o, gateway, confirmed);
    }
  }

  /** The options nobody has touched are such. */
  lemma DefaultsAreInTime()
    ensures var o := Options(None, None, None, None, None);
            Configured(o) && 60 * SlowHours(o) % PollMinutes(o) == 0 && DailyInTime(o)
  {
  }

  lemma WholePolls(o: Options)
    requires Configured(o) && 60 * SlowHours(o) % PollMinutes(o) == 0
    ensures var gap, p := 60 * PollMinutes(o), 60 * SlowHours(o) / PollMinutes(o);
            TakesPolls(p, gap, 3600 * SlowHours(o)) && MONTH / gap / p == MONTH / (3600 * SlowHours(o))
  {
    var gap, p := 60 * PollMinutes(o), 60 * SlowHours(o) / PollMinutes(o);
    assert p * PollMinutes(o) == 60 * SlowHours(o);
    assert p * gap == 3600 * SlowHours(o);
    assert p > 0;
    assert (p - 1) * gap == p * gap - gap;
    DivideTwice(MONTH, gap, p);
  }

  /** Gateway list cycles at their interval are as many as the estimate says. */
  lemma {:induction false} RegularCycles(n: nat, gap: Time) returns (cycles: seq<Time>)
    requires gap > 0
    ensures |cycles| == n && forall i :: 0 <= i < n ==> cycles[i] == i * gap
  {
    cycles := seq(n, i => i * gap);
  }

  lemma GatewayPartIsReached(o: Options, d: Devices, confirmed: bool) returns (cycles: seq<Time>)
    requires Configured(o) && !ManualSync(o)
    ensures cycles != [] && Kept(cycles, Some(cycles[|cycles| - 1]), 60 * GatewayMinutes(o), 0, MONTH)
    ensures Exact(o, d, confirmed).gatewayStatus <= |cycles| as real
  {
    var gap := 60 * GatewayMinutes(o);
    cycles := RegularCycles(MONTH / gap + 1, gap);
    MonthAndOneMore(o);
    assert MONTH / gap * gap <= MONTH;
    forall i, j | 0 <= i < j < |cycles|
      ensures cycles[i] + (j - i) * gap <= cycles[j]
    {
      assert i * gap + (j - i) * gap == j * gap;
    }
    forall i | 0 <= i < |cycles|
      ensures 0 <= cycles[i] <= MONTH
    {
      assert i * gap <= MONTH / gap * gap;
    }
  }

  /** With syncing by hand nothing is scheduled, and nothing estimated. */
  lemma ManualIsNothing(o: Options, d: Devices, confirmed: bool)
    requires Configured(o) && ManualSync(o)
    ensures EstimateMonthlyCalls(o, d, confirmed) == (Breakdown(0, 0, 0, 0, 0), 0)
  {
    RoundWhole(0);
  }

  /** The estimate for the options nobody has touched: a lock with gateway and sensor, polled every half hour, with slow
      fetches every six hours and the gateway list every quarter. */
  lemma DefaultEstimate(d: Devices)
    requires d == Devices(1, 1, 1)
    ensures EstimateMonthlyCalls(Options(None, None, None, None, None), d, true)
         == (Breakdown(1461, 365, 244, 2922, 30), 5022)
  {
  }
}
