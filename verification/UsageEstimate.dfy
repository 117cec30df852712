/** The monthly estimate of scheduled cloud calls, and the calls a month of polling really makes. */
module UsageEstimate {
  import opened Bytes
  import opened Rounding
  import opened LockStore
  import opened LockCoordinator
  import opened CoordinatorRuns
  import opened CallBudget

  datatype Options = Options(
    pollMinutes: Option<int>, slowHours: Option<int>, gatewayMinutes: Option<int>,
    webhookOnly: Option<bool>, manualSync: Option<bool>)

  function OrDefault<T>(value: Option<T>, default: T): T {
    if value.Some? then value.value else default
  }

  function PollMinutes(o: Options): int { OrDefault(o.pollMinutes, 30) }
  function SlowHours(o: Options): int { OrDefault(o.slowHours, 6) }
  function GatewayMinutes(o: Options): int { OrDefault(o.gatewayMinutes, 15) }
  function WebhookOnly(o: Options): bool { OrDefault(o.webhookOnly, false) }
  function ManualSync(o: Options): bool { OrDefault(o.manualSync, false) }

  /** Intervals as the options form lets them through. */
  predicate Configured(o: Options) {
    5 <= PollMinutes(o) <= 1440 && 1 <= SlowHours(o) <= 168 && 5 <= GatewayMinutes(o) <= 1440
  }

  const DAYS_PER_MONTH := 30.44

  datatype Breakdown<T> = Breakdown(lockState: T, lockDetail: T, credentials: T, gatewayStatus: T, doorSensor: T)

  datatype Devices = Devices(locks: nat, withGateway: nat, withDoorSensor: nat)

  function PollsPerMonth(o: Options): real
    requires Configured(o)
  {
    24.0 * 60.0 / PollMinutes(o) as real * DAYS_PER_MONTH
  }

  function SlowFetchesPerMonth(o: Options): real
    requires Configured(o)
  {
    24.0 / SlowHours(o) as real * DAYS_PER_MONTH
  }

  /** The estimate before it is rounded. */
  function Exact(o: Options, d: Devices, webhookConfirmed: bool): Breakdown<real>
    requires Configured(o)
  {
    if ManualSync(o) then Breakdown(0.0, 0.0, 0.0, 0.0, 0.0)
    else
      Breakdown(
        if WebhookOnly(o) && webhookConfirmed then 0.0 else d.locks as real * PollsPerMonth(o),
        (d.locks * 2 + d.withGateway) as real * SlowFetchesPerMonth(o),
        (d.locks * 2) as real * SlowFetchesPerMonth(o),
        24.0 * 60.0 / GatewayMinutes(o) as real * DAYS_PER_MONTH,
        d.withDoorSensor as real * DAYS_PER_MONTH)
  }

  function Rounded(b: Breakdown<real>): Breakdown<int> {
    Breakdown(Round(b.lockState), Round(b.lockDetail), Round(b.credentials), Round(b.gatewayStatus),
          Round(b.doorSensor))
  }

  /** `estimate_monthly_calls`: the breakdown and its total. */
  function EstimateMonthlyCalls(o: Options, d: Devices, webhookConfirmed: bool): (r: (Breakdown<int>, int))
    requires Configured(o)
  {
    var b := Rounded(Exact(o, d, webhookConfirmed));
    (b, b.lockState + b.lockDetail + b.credentials + b.gatewayStatus + b.doorSensor)
  }

  function Sum(b: Breakdown<real>): real {
    b.lockState + b.lockDetail + b.credentials + b.gatewayStatus + b.doorSensor
  }

  /** Rounding part by part moves the total by two and a half calls at most. */
  lemma TotalIsNearExact(o: Options, d: Devices, webhookConfirmed: bool)
    requires Configured(o)
    ensures -2.5 <= EstimateMonthlyCalls(o, d, webhookConfirmed).1 as real - Sum(Exact(o, d, webhookConfirmed)) <= 2.5
  {
  }

  // ---------------------------------------------------------------- a month of one lock

  /** 30.44 days. */
  const MONTH: Time := 2630016

  /** A lock over a month: how it is set up, where it starts, what happens. */
  datatype LockMonth = LockMonth(cfg: Config, lock: Lock, events: seq<Event>, start: Time)

  predicate HasSensor(m: LockMonth) {
    m.lock.data.doorSensor
  }

  /** Nothing but scheduled polls that succeed, as the options say; the sensor feature stays as it is, and a sensor that
      is found has a battery; behind a confirmed webhook the cloud answers when it is asked. */
  predicate Ordinary(m: LockMonth, o: Options, webhookConfirmed: bool)
    requires Configured(o)
  {
    && m.lock.calls == []
    && m.cfg.slowInterval == 3600 * SlowHours(o) && m.cfg.webhookOnly == WebhookOnly(o)
    && Scheduled(m.cfg, m.lock, m.events, 60 * PollMinutes(o), m.start, MONTH)
    && (WebhookOnly(o) && webhookConfirmed ==>
        forall i :: 0 <= i < |m.events| && m.events[i].Poll? ==>
          m.events[i].webhookConfirmed && m.events[i].answers.state.Answer?)
    && (if HasSensor(m)
        then forall i :: 0 <= i < |m.events| ==> KeepsSensor(m.events[i])
        else forall i :: 0 <= i < |m.events| && m.events[i].Poll? && m.events[i].answers.details.Answer? ==>
               !m.events[i].answers.details.value.doorSensor)
  }

  function CallsOf(m: LockMonth): seq<ApiCall> {
    Run(m.cfg, m.lock, m.events).calls
  }

  function One(m: LockMonth): Devices {
    Devices(1, if m.cfg.hasGateway then 1 else 0, if HasSensor(m) then 1 else 0)
  }

  /** The kinds of calls made for a lock. */
  function Kinds(m: LockMonth): nat {
    5 + (if m.cfg.hasGateway then 1 else 0) + (if HasSensor(m) then 1 else 0)
  }

  lemma WholeIntervals(length: Time, gap: Time)
    requires gap > 0 && length >= 0
    ensures (length / gap) as real <= length as real / gap as real
  {
    var q := length / gap;
    assert q * gap <= length;
    assert (q * gap) as real == q as real * gap as real;
    DivideBack(q as real, length as real, gap as real);
  }

  lemma DivideBack(q: real, x: real, y: real)
    requires y > 0.0 && q * y <= x
    ensures q <= x / y
  {
    assert q > x / y ==> q * y > x;
  }

  /** A month's whole intervals, in the estimate's terms. */
  lemma MonthInIntervals(o: Options)
    requires Configured(o)
    ensures (MONTH / (60 * PollMinutes(o))) as real <= PollsPerMonth(o)
    ensures (MONTH / (3600 * SlowHours(o))) as real <= SlowFetchesPerMonth(o)
    ensures (MONTH / (60 * GatewayMinutes(o))) as real <= 24.0 * 60.0 / GatewayMinutes(o) as real * DAYS_PER_MONTH
    ensures (MONTH / DAY) as real <= DAYS_PER_MONTH
  {
    WholeIntervals(MONTH, 60 * PollMinutes(o));
    WholeIntervals(MONTH, 3600 * SlowHours(o));
    WholeIntervals(MONTH, 60 * GatewayMinutes(o));
    Minutes(PollMinutes(o));
    Minutes(GatewayMinutes(o));
    Hours(SlowHours(o));
  }

  lemma Minutes(n: int)
    requires n > 0
    ensures MONTH as real / (60 * n) as real == 24.0 * 60.0 / n as real * DAYS_PER_MONTH
  {
    var r := n as real;
    assert (60 * n) as real == 60.0 * r;
    assert 24.0 * 60.0 / r * DAYS_PER_MONTH * (60.0 * r) == 2630016.0;
  }

  lemma Hours(n: int)
    requires n > 0
    ensures MONTH as real / (3600 * n) as real == 24.0 / n as real * DAYS_PER_MONTH
  {
    var r := n as real;
    assert (3600 * n) as real == 3600.0 * r;
    assert 24.0 / r * DAYS_PER_MONTH * (3600.0 * r) == 2630016.0;
  }

  /** One lock's state queries in an ordinary month. */
  lemma StateQueriesOf(m: LockMonth, o: Options, webhookConfirmed: bool)
    requires Configured(o) && Ordinary(m, o, webhookConfirmed) && !ManualSync(o)
    ensures |Asked(CallsOf(m), OpenState)| as real <= Exact(o, One(m), webhookConfirmed).lockState + 1.0
  {
    MonthInIntervals(o);
    StateQueryBudget(m.cfg, m.lock, m.events, 60 * PollMinutes(o), m.start, MONTH);
    if WebhookOnly(o) && webhookConfirmed {
      OneStartUpQuery(m.cfg, m.lock, m.events, 60 * PollMinutes(o), m.start, MONTH);
    }
  }

  lemma SlowCallsOf(m: LockMonth, o: Options, webhookConfirmed: bool, endpoint: Endpoint)
    requires Configured(o) && Ordinary(m, o, webhookConfirmed) && IsSlow(endpoint)
    ensures |Asked(CallsOf(m), endpoint)| as real <= SlowFetchesPerMonth(o) + 1.0
    ensures endpoint.LockGateways? && !m.cfg.hasGateway ==> Asked(CallsOf(m), endpoint) == []
  {
    MonthInIntervals(o);
    SlowCallBudget(m.cfg, m.lock, m.events, 60 * PollMinutes(o), m.start, MONTH, endpoint);
  }

  lemma SensorQueriesOf(m: LockMonth, o: Options, webhookConfirmed: bool)
    requires Configured(o) && Ordinary(m, o, webhookConfirmed)
    ensures |Asked(CallsOf(m), DoorSensor)| as real <= if HasSensor(m) then DAYS_PER_MONTH + 1.0 else 0.0
  {
    MonthInIntervals(o);
    if HasSensor(m) {
      SensorQueryBudget(m.cfg, m.lock, m.events, 60 * PollMinutes(o), m.start, MONTH);
    } else {
      NoSensorNoQueries(m.cfg, m.lock, m.events, 60 * PollMinutes(o), m.start, MONTH);
    }
  }

  function LockPart(b: Breakdown<real>): real {
    b.lockState + b.lockDetail + b.credentials + b.doorSensor
  }

  lemma LockPartOfOne(m: LockMonth, o: Options, webhookConfirmed: bool)
    requires Configured(o) && !ManualSync(o)
    ensures var slow := SlowFetchesPerMonth(o);
            LockPart(Exact(o, One(m), webhookConfirmed))
            == Exact(o, One(m), webhookConfirmed).lockState + 4.0 * slow
               + (if m.cfg.hasGateway then slow else 0.0) + (if HasSensor(m) then DAYS_PER_MONTH else 0.0)
  {
    var slow := SlowFetchesPerMonth(o);
    assert (One(m).locks * 2 + One(m).withGateway) as real * slow
          == 2.0 * slow + if m.cfg.hasGateway then slow else 0.0;
  }

  lemma SlowCallsTogether(m: LockMonth, o: Options, webhookConfirmed: bool)
    requires Configured(o) && Ordinary(m, o, webhookConfirmed)
    ensures var calls, slow := CallsOf(m), SlowFetchesPerMonth(o);
            (|Asked(calls, LockDetail)| + |Asked(calls, PassageMode)| + |Asked(calls, LockGateways)|
             + |Asked(calls, Passcodes)| + |Asked(calls, Ekeys)|) as real
            <= 4.0 * slow + 4.0 + if m.cfg.hasGateway then slow + 1.0 else 0.0
  {
    SlowCallsOf(m, o, webhookConfirmed, LockDetail);
    SlowCallsOf(m, o, webhookConfirmed, PassageMode);
    SlowCallsOf(m, o, webhookConfirmed, LockGateways);
    SlowCallsOf(m, o, webhookConfirmed, Passcodes);
    SlowCallsOf(m, o, webhookConfirmed, Ekeys);
  }

  /** One lock makes no more calls in an ordinary month than the unrounded estimate for it says, and one more of each
      kind. */
  lemma OneLockWithinEstimate(m: LockMonth, o: Options, webhookConfirmed: bool)
    requires Configured(o) && Ordinary(m, o, webhookConfirmed) && !ManualSync(o)
    ensures |CallsOf(m)| as real <= LockPart(Exact(o, One(m), webhookConfirmed)) + Kinds(m) as real
  {
    CallsByKind(CallsOf(m));
    StateQueriesOf(m, o, webhookConfirmed);
    SlowCallsTogether(m, o, webhookConfirmed);
    SensorQueriesOf(m, o, webhookConfirmed);
    LockPartOfOne(m, o, webhookConfirmed);
  }

  // ---------------------------------------------------------------- the whole account

  function AllCalls(ms: seq<LockMonth>): nat {
    if ms == [] then 0 else |CallsOf(ms[0])| + AllCalls(ms[1..])
  }

  function AllKinds(ms: seq<LockMonth>): nat {
    if ms == [] then 0 else Kinds(ms[0]) + AllKinds(ms[1..])
  }

  function All(ms: seq<LockMonth>): Devices {
    if ms == [] then Devices(0, 0, 0)
    else Together(One(ms[0]), All(ms[1..]))
  }

  function Together(a: Devices, b: Devices): Devices {
    Devices(a.locks + b.locks, a.withGateway + b.withGateway, a.withDoorSensor + b.withDoorSensor)
  }

  lemma EstimateAdds(o: Options, a: Devices, b: Devices, webhookConfirmed: bool)
    requires Configured(o)
    ensures LockPart(Exact(o, Together(a, b), webhookConfirmed))
         == LockPart(Exact(o, a, webhookConfirmed)) + LockPart(Exact(o, b, webhookConfirmed))
  {
    Expand(a.locks as real, b.locks as real, PollsPerMonth(o));
    Expand((a.locks * 2 + a.withGateway) as real, (b.locks * 2 + b.withGateway) as real, SlowFetchesPerMonth(o));
    Expand((a.locks * 2) as real, (b.locks * 2) as real, SlowFetchesPerMonth(o));
    Expand(a.withDoorSensor as real, b.withDoorSensor as real, DAYS_PER_MONTH);
  }

  lemma Expand(x: real, y: real, z: real)
    ensures (x + y) * z == x * z + y * z
  {
  }

  lemma {:induction false} LocksWithinEstimate(ms: seq<LockMonth>, o: Options, webhookConfirmed: bool)
    requires Configured(o) && !ManualSync(o) && forall i :: 0 <= i < |ms| ==> Ordinary(ms[i], o, webhookConfirmed)
    ensures AllCalls(ms) as real <= LockPart(Exact(o, All(ms), webhookConfirmed)) + AllKinds(ms) as real
  {
    if ms != [] {
      OneLockWithinEstimate(ms[0], o, webhookConfirmed);
      LocksWithinEstimate(ms[1..], o, webhookConfirmed);
      EstimateAdds(o, One(ms[0]), All(ms[1..]), webhookConfirmed);
    }
  }

  lemma CyclesWithinEstimate(cycles: seq<Time>, o: Options, d: Devices, webhookConfirmed: bool, start: Time)
    requires Configured(o) && !ManualSync(o)
    requires cycles != [] ==> Kept(cycles, Some(cycles[|cycles| - 1]), 60 * GatewayMinutes(o), start, MONTH)
    ensures |cycles| as real <= Exact(o, d, webhookConfirmed).gatewayStatus + 1.0
  {
    MonthInIntervals(o);
    if cycles != [] {
      SpacedCount(cycles, Some(cycles[|cycles| - 1]), 60 * GatewayMinutes(o), start, MONTH);
    }
  }

  /** All of an account's calls in an ordinary month, its gateway list cycles included: no more than the estimate
      shown to the user, two and a half for its rounding, and one of each kind. */
  lemma AccountWithinEstimate(ms: seq<LockMonth>, cycles: seq<Time>, o: Options, webhookConfirmed: bool, start: Time)
    requires Configured(o) && !ManualSync(o) && forall i :: 0 <= i < |ms| ==> Ordinary(ms[i], o, webhookConfirmed)
    requires cycles != [] ==> Kept(cycles, Some(cycles[|cycles| - 1]), 60 * GatewayMinutes(o), start, MONTH)
    ensures (AllCalls(ms) + |cycles|) as real
         <= EstimateMonthlyCalls(o, All(ms), webhookConfirmed).1 as real + 2.5 + (AllKinds(ms) + 1) as real
  {
    var exact := Exact(o, All(ms), webhookConfirmed);
    LocksWithinEstimate(ms, o, webhookConfirmed);
    CyclesWithinEstimate(cycles, o, All(ms), webhookConfirmed, start);
    TotalIsNearExact(o, All(ms), webhookConfirmed);
    assert Sum(exact) == LockPart(exact) + exact.gatewayStatus;
  }
}
