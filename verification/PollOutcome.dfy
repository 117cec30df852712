/** What a poll asks, when it fails, and what it publishes, field by field. */
module PollOutcome {
  import opened Bytes
  import opened LockStore
  import opened LockCoordinator
  import opened CoordinatorRuns

  // ---------------------------------------------------------------- what is due

  /** Never fetched, or a slow interval ago or longer. */
  predicate SlowDue(cfg: Config, last: Option<Time>, now: Time) {
    last.None? || now - last.value >= cfg.slowInterval
  }

  /** A lock that reports its state over Bluetooth. */
  predicate ToldLocally(answers: Answers) {
    answers.local.Some? && answers.local.value.locked.Some?
  }

  /** A known state that confirmed webhooks keep up to date. */
  predicate LeftToWebhook(cfg: Config, l: Lock, confirmed: bool, answers: Answers) {
    !ToldLocally(answers) && cfg.webhookOnly && confirmed && l.data.locked.Some?
  }

  /** Whether the lock has the sensor feature, as far as this poll knows. */
  predicate Featured(cfg: Config, l: Lock, now: Time, answers: Answers) {
    if SlowDue(cfg, l.gates.details, now) && answers.details.Answer? then answers.details.value.doorSensor
    else l.data.doorSensor
  }

  /** A sensor known by its battery is asked once more than a day has passed; one taken for absent once after each
      restart; and any other at once, or once more than a day has passed since it was not found. */
  predicate SensorDue(l: Lock, now: Time) {
    if l.data.sensor.Some? && l.data.sensor.value.battery.Some? then
      l.data.sensor.value.lastFetched.None? || now - l.data.sensor.value.lastFetched.value > 86400
    else if l.record.confirmedAbsent == Some(true) then !l.gates.recheckDone
    else l.record.lastFailed.None? || now - l.record.lastFailed.value > 86400
  }

  // ---------------------------------------------------------------- what is asked

  /** A query a poll has to make and whether it gets by with the answer. */
  datatype Planned = Planned(endpoint: Endpoint, answered: bool)

  function If(c: bool, endpoint: Endpoint, answered: bool): seq<Planned> {
    if c then [Planned(endpoint, answered)] else []
  }

  /** Everything due, fetch by fetch in the order in which it is asked. Without the state a poll gets by if it was not
      known. */
  function Parts(cfg: Config, l: Lock, now: Time, confirmed: bool, answers: Answers): seq<seq<Planned>> {
    [If(SlowDue(cfg, l.gates.details, now), LockDetail, answers.details.Answer?),
     If(Featured(cfg, l, now, answers) && SensorDue(l, now), DoorSensor, answers.sensor.Answer?),
     If(!ToldLocally(answers) && !LeftToWebhook(cfg, l, confirmed, answers), OpenState,
        answers.state.Answer? || l.data.locked.None?),
     If(SlowDue(cfg, l.gates.passage, now), PassageMode, answers.passage.Answer?),
     If(cfg.hasGateway && SlowDue(cfg, l.gates.gateways, now), LockGateways, answers.gateways.Answer?),
     If(SlowDue(cfg, l.gates.codes, now), Passcodes, answers.passcodes.Answer?)
     + If(SlowDue(cfg, l.gates.codes, now), Ekeys, answers.ekeys.Answer?)]
  }

  function Joined(parts: seq<seq<Planned>>): seq<Planned> {
    if parts == [] then [] else Joined(parts[..|parts| - 1]) + parts[|parts| - 1]
  }

  function Plan(cfg: Config, l: Lock, now: Time, confirmed: bool, answers: Answers): seq<Planned> {
    Joined(Parts(cfg, l, now, confirmed, answers))
  }

  predicate AllAnswered(plan: seq<Planned>) {
    plan == [] || (plan[0].answered && AllAnswered(plan[1..]))
  }

  /** The queries made of a plan: up to the first one without an answer. */
  function Made(plan: seq<Planned>, now: Time): seq<ApiCall> {
    if plan == [] then []
    else [ApiCall(plan[0].endpoint, now)] + if plan[0].answered then Made(plan[1..], now) else []
  }

  lemma {:induction false} AllOfTwo(p: seq<Planned>, q: seq<Planned>)
    ensures AllAnswered(p + q) <==> AllAnswered(p) && AllAnswered(q)
  {
    if p == [] {
      assert p + q == q;
    } else {
      assert (p + q)[1..] == p[1..] + q;
      AllOfTwo(p[1..], q);
    }
  }

  lemma {:induction false} MadeOfTwo(p: seq<Planned>, q: seq<Planned>, now: Time)
    ensures Made(p + q, now) == Made(p, now) + if AllAnswered(p) then Made(q, now) else []
  {
    if p == [] {
      assert p + q == q;
      assert [] + Made(q, now) == Made(q, now);
    } else {
      assert (p + q)[1..] == p[1..] + q;
      MadeOfTwo(p[1..], q, now);
      Associate(ApiCall(p[0].endpoint, now), Made(p[1..], now), if AllAnswered(p[1..]) then Made(q, now) else []);
    }
  }

  lemma Associate(first: ApiCall, more: seq<ApiCall>, rest: seq<ApiCall>)
    ensures [first] + (more + rest) == ([first] + more) + rest && ([first] + []) + [] == [first] + []
  {
  }

  /** A stretch of the poll makes the queries planned for it, and fails with the first one that fails. */
  predicate Ran(a: Attempt, after: Attempt, plan: seq<Planned>, now: Time) {
    && after.calls == a.calls + (if a.failed then [] else Made(plan, now))
    && (after.failed <==> a.failed || !AllAnswered(plan))
  }

  lemma RanInTurn(a: Attempt, b: Attempt, c: Attempt, p: seq<Planned>, q: seq<Planned>, now: Time)
    requires Ran(a, b, p, now) && Ran(b, c, q, now)
    ensures Ran(a, c, p + q, now)
  {
    AllOfTwo(p, q);
    MadeOfTwo(p, q, now);
    CallsInTurn(a.calls, Made(p, now), if AllAnswered(p) then Made(q, now) else []);
  }

  lemma CallsInTurn(calls: seq<ApiCall>, p: seq<ApiCall>, q: seq<ApiCall>)
    ensures (calls + p) + q == calls + (p + q) && (calls + []) + [] == calls + [] && (calls + p) + [] == calls + p
  {
  }

  lemma DetailsRan(cfg: Config, l: Lock, now: Time, answers: Answers)
    ensures var plan := If(SlowDue(cfg, l.gates.details, now), LockDetail, answers.details.Answer?);
            Ran(Start(l), FetchDetails(cfg, Start(l), now, answers.details), plan, now)
  {
  }

  lemma SensorRan(cfg: Config, l: Lock, now: Time, answers: Answers)
    ensures var a := FetchDetails(cfg, Start(l), now, answers.details);
            var plan := If(Featured(cfg, l, now, answers) && SensorDue(l, now), DoorSensor, answers.sensor.Answer?);
            Ran(a, RefreshSensor(a, now, answers.sensor), plan, now)
  {
    var a := FetchDetails(cfg, Start(l), now, answers.details);
    assert !a.failed ==> a.data.doorSensor == Featured(cfg, l, now, answers);
    assert a.data.sensor == l.data.sensor && a.record == l.record && a.gates.recheckDone == l.gates.recheckDone;
  }

  lemma StateRan(cfg: Config, l: Lock, a: Attempt, now: Time, confirmed: bool, answers: Answers)
    requires a.data.locked == l.data.locked
    ensures var plan := If(!ToldLocally(answers) && !LeftToWebhook(cfg, l, confirmed, answers), OpenState,
                           answers.state.Answer? || l.data.locked.None?);
            Ran(a, VerifyState(cfg, a, now, confirmed, answers.local, answers.state), plan, now)
  {
  }

  lemma PassageRan(cfg: Config, a: Attempt, now: Time, answers: Answers)
    ensures var plan := If(SlowDue(cfg, a.gates.passage, now), PassageMode, answers.passage.Answer?);
            Ran(a, FetchPassageMode(cfg, a, now, answers.passage), plan, now)
  {
  }

  lemma GatewaysRan(cfg: Config, a: Attempt, now: Time, answers: Answers)
    ensures var due := cfg.hasGateway && SlowDue(cfg, a.gates.gateways, now);
            var plan := If(due, LockGateways, answers.gateways.Answer?);
            Ran(a, FetchGateways(cfg, a, now, answers.gateways), plan, now)
  {
  }

  lemma CodesRan(cfg: Config, a: Attempt, now: Time, answers: Answers)
    ensures var due := SlowDue(cfg, a.gates.codes, now);
            var plan := If(due, Passcodes, answers.passcodes.Answer?) + If(due, Ekeys, answers.ekeys.Answer?);
            Ran(a, FetchCodes(cfg, a, now, answers.passcodes, answers.ekeys), plan, now)
  {
    if SlowDue(cfg, a.gates.codes, now) {
      TwoMade(Planned(Passcodes, answers.passcodes.Answer?), Planned(Ekeys, answers.ekeys.Answer?), now);
    }
  }

  lemma TwoMade(p: Planned, q: Planned, now: Time)
    ensures AllAnswered([p] + [q]) <==> p.answered && q.answered
    ensures Made([p] + [q], now)
         == if p.answered then [ApiCall(p.endpoint, now), ApiCall(q.endpoint, now)] else [ApiCall(p.endpoint, now)]
  {
    OneMade(q, now);
    assert [p] + [q] == [p, q] && [p, q][1..] == [q];
  }

  lemma OneMade(p: Planned, now: Time)
    ensures (AllAnswered([p]) <==> p.answered) && Made([p], now) == [ApiCall(p.endpoint, now)]
  {
    assert [p][1..] == [];
  }

  lemma VerifiedRan(cfg: Config, l: Lock, now: Time, confirmed: bool, answers: Answers)
    ensures var parts := Parts(cfg, l, now, confirmed, answers);
            Ran(Start(l), Verified(cfg, Start(l), now, confirmed, answers), Joined(parts[..3]), now)
  {
    var parts := Parts(cfg, l, now, confirmed, answers);
    var detailed := FetchDetails(cfg, Start(l), now, answers.details);
    var sensed := RefreshSensor(detailed, now, answers.sensor);
    DetailsKeep(cfg, Start(l), now, answers.details);
    SensorKeeps(detailed, now, answers.sensor);
    DetailsRan(cfg, l, now, answers);
    SensorRan(cfg, l, now, answers);
    StateRan(cfg, l, sensed, now, confirmed, answers);
    RanAllInTurn([Start(l), detailed, sensed, Verified(cfg, Start(l), now, confirmed, answers)], parts[..3], now);
  }

  lemma VerifiedGates(cfg: Config, l: Lock, now: Time, confirmed: bool, answers: Answers)
    ensures var verified := Verified(cfg, Start(l), now, confirmed, answers);
            && verified.gates.passage == l.gates.passage && verified.gates.gateways == l.gates.gateways
            && verified.gates.codes == l.gates.codes
  {
    var detailed := FetchDetails(cfg, Start(l), now, answers.details);
    DetailsKeep(cfg, Start(l), now, answers.details);
    SensorKeeps(detailed, now, answers.sensor);
    StateKnown(cfg, RefreshSensor(detailed, now, answers.sensor), now, confirmed, answers.local, answers.state);
  }

  lemma ExtendedRan(cfg: Config, l: Lock, a: Attempt, now: Time, confirmed: bool, answers: Answers)
    requires a.gates.passage == l.gates.passage && a.gates.gateways == l.gates.gateways
    requires a.gates.codes == l.gates.codes
    ensures var parts := Parts(cfg, l, now, confirmed, answers);
            Ran(a, Extended(cfg, a, now, answers), Joined(parts[3..]), now)
  {
    var parts := Parts(cfg, l, now, confirmed, answers);
    var passage := FetchPassageMode(cfg, a, now, answers.passage);
    var linked := FetchGateways(cfg, passage, now, answers.gateways);
    GatesStay(cfg, a, now, answers);
    PassageRan(cfg, a, now, answers);
    GatewaysRan(cfg, passage, now, answers);
    CodesRan(cfg, linked, now, answers);
    RanAllInTurn([a, passage, linked, Extended(cfg, a, now, answers)], parts[3..], now);
  }

  lemma PollRan(cfg: Config, l: Lock, now: Time, confirmed: bool, answers: Answers)
    ensures Ran(Start(l), Attempted(cfg, Start(l), now, confirmed, answers), Plan(cfg, l, now, confirmed, answers), now)
  {
    var parts, verified := Parts(cfg, l, now, confirmed, answers), Verified(cfg, Start(l), now, confirmed, answers);
    VerifiedRan(cfg, l, now, confirmed, answers);
    VerifiedGates(cfg, l, now, confirmed, answers);
    ExtendedRan(cfg, l, verified, now, confirmed, answers);
    RanInTurn(Start(l), verified, Extended(cfg, verified, now, answers), Joined(parts[..3]), Joined(parts[3..]), now);
    JoinedOfTwo(parts, 3);
  }

  /** A poll of a lock that can be reached makes the queries due, in their order, up to the first one that fails, and
      succeeds exactly when none does; a lock that cannot be reached is not asked about at all. */
  lemma PollFollowsPlan(cfg: Config, l: Lock, now: Time, confirmed: bool, answers: Answers)
    ensures !cfg.connectable ==> PollStep(cfg, l, now, confirmed, answers) == l
    ensures cfg.connectable ==>
              PollStep(cfg, l, now, confirmed, answers).calls
              == l.calls + Made(Plan(cfg, l, now, confirmed, answers), now)
    ensures PollSucceeds(cfg, l, now, confirmed, answers)
       <==> cfg.connectable && AllAnswered(Plan(cfg, l, now, confirmed, answers))
  {
    PollRan(cfg, l, now, confirmed, answers);
  }

  lemma {:induction false} RanAllInTurn(attempts: seq<Attempt>, parts: seq<seq<Planned>>, now: Time)
    requires |attempts| == |parts| + 1
    requires forall i :: 0 <= i < |parts| ==> Ran(attempts[i], attempts[i + 1], parts[i], now)
    ensures Ran(attempts[0], attempts[|parts|], Joined(parts), now)
  {
    if parts != [] {
      var n := |parts| - 1;
      RanAllInTurn(attempts[..n + 1], parts[..n], now);
      RanInTurn(attempts[0], attempts[n], attempts[n + 1], Joined(parts[..n]), parts[n], now);
    }
  }

  lemma {:induction false} JoinedOfTwo(parts: seq<seq<Planned>>, n: nat)
    requires n <= |parts|
    ensures Joined(parts) == Joined(parts[..n]) + Joined(parts[n..])
  {
    if n == |parts| {
      assert parts[..n] == parts;
    } else {
      var last := |parts| - 1;
      JoinedOfTwo(parts[..last], n);
      assert parts[..last][..n] == parts[..n] && parts[..last][n..] == parts[n..][..last - n];
    }
  }

  lemma GatesStay(cfg: Config, a: Attempt, now: Time, answers: Answers)
    ensures var passage := FetchPassageMode(cfg, a, now, answers.passage);
            passage.gates.gateways == a.gates.gateways && passage.gates.codes == a.gates.codes
    ensures var linked := FetchGateways(cfg, FetchPassageMode(cfg, a, now, answers.passage), now, answers.gateways);
            linked.gates.codes == a.gates.codes
  {
  }

  // ---------------------------------------------------------------- how often something is asked

  function Times(plan: seq<Planned>, endpoint: Endpoint): nat {
    if plan == [] then 0 else (if plan[0].endpoint == endpoint then 1 else 0) + Times(plan[1..], endpoint)
  }

  lemma {:induction false} TimesOfTwo(p: seq<Planned>, q: seq<Planned>, endpoint: Endpoint)
    ensures Times(p + q, endpoint) == Times(p, endpoint) + Times(q, endpoint)
  {
    if p == [] {
      assert p + q == q;
    } else {
      assert (p + q)[1..] == p[1..] + q;
      TimesOfTwo(p[1..], q, endpoint);
    }
  }

  lemma {:induction false} OnlyIn(parts: seq<seq<Planned>>, i: nat, endpoint: Endpoint)
    requires i < |parts| && forall j :: 0 <= j < |parts| && j != i ==> Times(parts[j], endpoint) == 0
    ensures Times(Joined(parts), endpoint) == Times(parts[i], endpoint)
  {
    var last := |parts| - 1;
    TimesOfTwo(Joined(parts[..last]), parts[last], endpoint);
    if i < last {
      OnlyIn(parts[..last], i, endpoint);
    } else {
      NotIn(parts[..last], endpoint);
    }
  }

  lemma {:induction false} NotIn(parts: seq<seq<Planned>>, endpoint: Endpoint)
    requires forall j :: 0 <= j < |parts| ==> Times(parts[j], endpoint) == 0
    ensures Times(Joined(parts), endpoint) == 0
  {
    if parts != [] {
      var last := |parts| - 1;
      TimesOfTwo(Joined(parts[..last]), parts[last], endpoint);
      NotIn(parts[..last], endpoint);
    }
  }

  lemma {:induction false} AskedOfMade(calls: seq<ApiCall>, plan: seq<Planned>, now: Time, endpoint: Endpoint)
    requires AllAnswered(plan)
    ensures |Asked(calls + Made(plan, now), endpoint)| == |Asked(calls, endpoint)| + Times(plan, endpoint)
    decreases |plan|
  {
    if plan == [] {
      assert calls + [] == calls;
    } else {
      var first := ApiCall(plan[0].endpoint, now);
      AskedOneMore(calls, first, endpoint);
      AskedOfMade(calls + [first], plan[1..], now, endpoint);
      assert calls + ([first] + Made(plan[1..], now)) == (calls + [first]) + Made(plan[1..], now);
    }
  }

  lemma TimesOfIf(c: bool, endpoint: Endpoint, answered: bool, other: Endpoint)
    ensures Times(If(c, endpoint, answered), other) == if c && endpoint == other then 1 else 0
  {
  }

  lemma TimesOfParts(cfg: Config, l: Lock, now: Time, confirmed: bool, answers: Answers, endpoint: Endpoint)
    requires endpoint == DoorSensor || endpoint == OpenState
    ensures var parts := Parts(cfg, l, now, confirmed, answers);
            forall j :: 0 <= j < |parts| && j != (if endpoint == DoorSensor then 1 else 2) ==>
              Times(parts[j], endpoint) == 0
  {
    TimesOfTwo(If(SlowDue(cfg, l.gates.codes, now), Passcodes, answers.passcodes.Answer?),
               If(SlowDue(cfg, l.gates.codes, now), Ekeys, answers.ekeys.Answer?), endpoint);
  }

  lemma TimesInPlan(cfg: Config, l: Lock, now: Time, confirmed: bool, answers: Answers)
    ensures var plan := Plan(cfg, l, now, confirmed, answers);
            && Times(plan, DoorSensor) == (if Featured(cfg, l, now, answers) && SensorDue(l, now) then 1 else 0)
            && Times(plan, OpenState)
               == (if !ToldLocally(answers) && !LeftToWebhook(cfg, l, confirmed, answers) then 1 else 0)
  {
    var parts := Parts(cfg, l, now, confirmed, answers);
    TimesOfParts(cfg, l, now, confirmed, answers, DoorSensor);
    TimesOfParts(cfg, l, now, confirmed, answers, OpenState);
    OnlyIn(parts, 1, DoorSensor);
    OnlyIn(parts, 2, OpenState);
    TimesOfIf(Featured(cfg, l, now, answers) && SensorDue(l, now), DoorSensor, answers.sensor.Answer?, DoorSensor);
    TimesOfIf(!ToldLocally(answers) && !LeftToWebhook(cfg, l, confirmed, answers), OpenState,
              answers.state.Answer? || l.data.locked.None?, OpenState);
  }

  /** How often a poll that succeeds asks for the sensor and for the state: once if that is due. */
  lemma SensorAndStateAsked(cfg: Config, l: Lock, now: Time, confirmed: bool, answers: Answers)
    requires PollSucceeds(cfg, l, now, confirmed, answers)
    ensures var calls := PollStep(cfg, l, now, confirmed, answers).calls;
            && |Asked(calls, DoorSensor)|
               == |Asked(l.calls, DoorSensor)| + (if Featured(cfg, l, now, answers) && SensorDue(l, now) then 1 else 0)
            && |Asked(calls, OpenState)|
               == |Asked(l.calls, OpenState)|
                  + (if !ToldLocally(answers) && !LeftToWebhook(cfg, l, confirmed, answers) then 1 else 0)
  {
    var plan := Plan(cfg, l, now, confirmed, answers);
    PollFollowsPlan(cfg, l, now, confirmed, answers);
    TimesInPlan(cfg, l, now, confirmed, answers);
    AskedOfMade(l.calls, plan, now, DoorSensor);
    AskedOfMade(l.calls, plan, now, OpenState);
  }

  // ---------------------------------------------------------------- what is published

  /** The state as the lock itself says, or as it was if webhooks keep it, or as the cloud says: locked for its answer
      "locked" and not locked for any other. A state not known before stays unknown without an answer. */
  predicate StatePublished(cfg: Config, l: Lock, confirmed: bool, answers: Answers, locked: Option<bool>) {
    && (ToldLocally(answers) ==> locked == answers.local.value.locked)
    && (LeftToWebhook(cfg, l, confirmed, answers) ==> locked == l.data.locked)
    && (!ToldLocally(answers) && !LeftToWebhook(cfg, l, confirmed, answers) ==>
          && (answers.state.Answer? ==>
                && (locked == Some(true) <==> answers.state.value.position == Locked)
                && (locked == Some(false) <==> answers.state.value.position != Locked))
          && (answers.state.Failure? ==> locked == None))
  }

  /** Whether a present sensor's door is open, from the same source as the lock's state; what the source does not say
      stays as it was. */
  predicate DoorPublished(cfg: Config, l: Lock, confirmed: bool, answers: Answers, was: Option<bool>,
                          open: Option<bool>)
  {
    && (ToldLocally(answers) ==>
          open == if answers.local.value.doorOpen.Some? then answers.local.value.doorOpen else was)
    && (LeftToWebhook(cfg, l, confirmed, answers) ==> open == was)
    && (!ToldLocally(answers) && !LeftToWebhook(cfg, l, confirmed, answers) ==>
          && (answers.state.Answer? ==>
                && (open == Some(true) <==> answers.state.value.door == Opened)
                && (open == Some(false) <==> answers.state.value.door != Opened))
          && (answers.state.Failure? ==> open == was))
  }

  function DoorWas(sensor: Option<SensorData>): Option<bool> {
    if sensor.Some? then sensor.value.doorOpen else None
  }

  lemma VerifyPublishes(cfg: Config, l: Lock, a: Attempt, now: Time, confirmed: bool, answers: Answers)
    requires !a.failed && a.data.locked == l.data.locked
    requires !VerifyState(cfg, a, now, confirmed, answers.local, answers.state).failed
    ensures var d := VerifyState(cfg, a, now, confirmed, answers.local, answers.state).data;
            && StatePublished(cfg, l, confirmed, answers, d.locked)
            && (Present(a.data.sensor) ==>
                  DoorPublished(cfg, l, confirmed, answers, a.data.sensor.value.doorOpen, DoorWas(d.sensor)))
            && (!Present(a.data.sensor) ==> d.sensor == a.data.sensor)
            && (a.data.sensor.Some? ==> d.sensor == Some(a.data.sensor.value.(doorOpen := DoorWas(d.sensor))))
            && d.battery == (if ToldLocally(answers) && answers.local.value.battery.Some?
                             then answers.local.value.battery else a.data.battery)
            && d == a.data.(locked := d.locked, sensor := d.sensor, battery := d.battery)
  {
  }

  /** The sensor of a poll that gets past it: none without the feature; with it, one that is there or a placeholder,
      with the battery the cloud gave if it was asked and found one. */
  predicate SensorRead(cfg: Config, l: Lock, now: Time, answers: Answers, sensor: Option<SensorData>)
  {
    var asked := Featured(cfg, l, now, answers) && SensorDue(l, now);
    var was := if l.data.sensor.Some? then l.data.sensor.value else SensorData(None, None, None);
    && (sensor.Some? <==> Featured(cfg, l, now, answers))
    && (sensor.Some? ==>
          && sensor.value.doorOpen == was.doorOpen
          && sensor.value.lastFetched == (if asked then Some(now) else was.lastFetched)
          && sensor.value.battery == (if asked && answers.sensor.Answer? && answers.sensor.value.Some?
                                      then answers.sensor.value.value.battery else was.battery))
  }

  lemma RefreshReads(cfg: Config, l: Lock, now: Time, answers: Answers)
    requires !RefreshSensor(FetchDetails(cfg, Start(l), now, answers.details), now, answers.sensor).failed
    ensures var detailed := FetchDetails(cfg, Start(l), now, answers.details);
            var d := RefreshSensor(detailed, now, answers.sensor).data;
            SensorRead(cfg, l, now, answers, d.sensor) && d == detailed.data.(sensor := d.sensor)
  {
    var a := FetchDetails(cfg, Start(l), now, answers.details);
    assert !a.failed ==> a.data.doorSensor == Featured(cfg, l, now, answers);
    assert a.data.sensor == l.data.sensor && a.record == l.record && a.gates.recheckDone == l.gates.recheckDone;
  }

  /** What a poll that succeeds publishes of its other fetches: the answers to those that were due, and the rest as it
      was; users and reasons are left alone. */
  predicate FetchesPublished(cfg: Config, l: Lock, now: Time, answers: Answers, d: LockState) {
    && (if SlowDue(cfg, l.gates.details, now)
        then answers.details.Answer? && d.about == answers.details.value.about
             && d.doorSensor == answers.details.value.doorSensor
             && d.autoLockSeconds == answers.details.value.autoLockSeconds
        else d.about == l.data.about && d.doorSensor == l.data.doorSensor
             && d.autoLockSeconds == l.data.autoLockSeconds)
    && d.battery == (if ToldLocally(answers) && answers.local.value.battery.Some? then answers.local.value.battery
                     else if SlowDue(cfg, l.gates.details, now) && answers.details.Answer?
                     then answers.details.value.battery else l.data.battery)
    && (if SlowDue(cfg, l.gates.passage, now)
        then answers.passage.Answer? && d.passageMode == Some(answers.passage.value)
        else d.passageMode == l.data.passageMode)
    && (!cfg.hasGateway ==> d.gateways == [])
    && (cfg.hasGateway ==>
          if SlowDue(cfg, l.gates.gateways, now) then answers.gateways.Answer? && d.gateways == answers.gateways.value
          else d.gateways == l.data.gateways)
    && (if SlowDue(cfg, l.gates.codes, now)
        then answers.passcodes.Answer? && d.passcodes == Some(answers.passcodes.value)
             && answers.ekeys.Answer? && d.ekeys == Some(answers.ekeys.value)
        else d.passcodes == l.data.passcodes && d.ekeys == l.data.ekeys)
    && d.lastUser == l.data.lastUser && d.lastReason == l.data.lastReason
  }

  lemma PassagePublishes(cfg: Config, a: Attempt, now: Time, answers: Answers)
    requires !FetchPassageMode(cfg, a, now, answers.passage).failed
    ensures var d := FetchPassageMode(cfg, a, now, answers.passage).data;
            && d == a.data.(passageMode := d.passageMode)
            && (if SlowDue(cfg, a.gates.passage, now)
                then answers.passage.Answer? && d.passageMode == Some(answers.passage.value)
                else d.passageMode == a.data.passageMode)
  {
  }

  lemma GatewaysPublish(cfg: Config, a: Attempt, now: Time, answers: Answers)
    requires !FetchGateways(cfg, a, now, answers.gateways).failed
    ensures var d := FetchGateways(cfg, a, now, answers.gateways).data;
            && d == a.data.(gateways := d.gateways)
            && (!cfg.hasGateway ==> d.gateways == [])
            && (cfg.hasGateway ==>
                  if SlowDue(cfg, a.gates.gateways, now)
                  then answers.gateways.Answer? && d.gateways == answers.gateways.value
                  else d.gateways == a.data.gateways)
  {
  }

  lemma CodesPublish(cfg: Config, a: Attempt, now: Time, answers: Answers)
    requires !FetchCodes(cfg, a, now, answers.passcodes, answers.ekeys).failed
    ensures var d := FetchCodes(cfg, a, now, answers.passcodes, answers.ekeys).data;
            && d == a.data.(passcodes := d.passcodes, ekeys := d.ekeys)
            && (if SlowDue(cfg, a.gates.codes, now)
                then answers.passcodes.Answer? && d.passcodes == Some(answers.passcodes.value)
                     && answers.ekeys.Answer? && d.ekeys == Some(answers.ekeys.value)
                else d.passcodes == a.data.passcodes && d.ekeys == a.data.ekeys)
  {
  }

  lemma FailureStays(cfg: Config, a: Attempt, now: Time, answers: Answers)
    requires !Extended(cfg, a, now, answers).failed
    ensures var passage := FetchPassageMode(cfg, a, now, answers.passage);
            !passage.failed && !FetchGateways(cfg, passage, now, answers.gateways).failed
  {
  }

  lemma ExtendedPublishes(cfg: Config, l: Lock, a: Attempt, now: Time, answers: Answers)
    requires a.gates.passage == l.gates.passage && a.gates.gateways == l.gates.gateways
    requires a.gates.codes == l.gates.codes && !Extended(cfg, a, now, answers).failed
    requires a.data.passageMode == l.data.passageMode && a.data.gateways == l.data.gateways
    requires a.data.passcodes == l.data.passcodes && a.data.ekeys == l.data.ekeys
    ensures var d := Extended(cfg, a, now, answers).data;
            && d == a.data.(passageMode := d.passageMode, gateways := d.gateways, passcodes := d.passcodes,
                            ekeys := d.ekeys)
            && (if SlowDue(cfg, l.gates.passage, now)
                then answers.passage.Answer? && d.passageMode == Some(answers.passage.value)
                else d.passageMode == l.data.passageMode)
            && (!cfg.hasGateway ==> d.gateways == [])
            && (cfg.hasGateway ==>
                  if SlowDue(cfg, l.gates.gateways, now)
                  then answers.gateways.Answer? && d.gateways == answers.gateways.value
                  else d.gateways == l.data.gateways)
            && (if SlowDue(cfg, l.gates.codes, now)
                then answers.passcodes.Answer? && d.passcodes == Some(answers.passcodes.value)
                     && answers.ekeys.Answer? && d.ekeys == Some(answers.ekeys.value)
                else d.passcodes == l.data.passcodes && d.ekeys == l.data.ekeys)
  {
    var passage := FetchPassageMode(cfg, a, now, answers.passage);
    var linked := FetchGateways(cfg, passage, now, answers.gateways);
    GatesStay(cfg, a, now, answers);
    FailureStays(cfg, a, now, answers);
    PassagePublishes(cfg, a, now, answers);
    GatewaysPublish(cfg, passage, now, answers);
    CodesPublish(cfg, linked, now, answers);
  }

  /** Everything a poll that succeeds publishes. */
  lemma PollPublishes(cfg: Config, l: Lock, now: Time, confirmed: bool, answers: Answers)
    requires PollSucceeds(cfg, l, now, confirmed, answers)
    ensures var d := PollStep(cfg, l, now, confirmed, answers).data;
            && StatePublished(cfg, l, confirmed, answers, d.locked)
            && FetchesPublished(cfg, l, now, answers, d)
            && (d.sensor.Some? ==>
                  && SensorRead(cfg, l, now, answers, Some(d.sensor.value.(doorOpen := DoorWas(l.data.sensor))))
                  && (if Present(d.sensor)
                      then DoorPublished(cfg, l, confirmed, answers, DoorWas(l.data.sensor), d.sensor.value.doorOpen)
                      else d.sensor.value.doorOpen == DoorWas(l.data.sensor)))
            && (d.sensor.None? ==> !d.doorSensor)
  {
    var detailed := FetchDetails(cfg, Start(l), now, answers.details);
    var sensed := RefreshSensor(detailed, now, answers.sensor);
    var verified := Verified(cfg, Start(l), now, confirmed, answers);
    DetailsKeep(cfg, Start(l), now, answers.details);
    SensorKeeps(detailed, now, answers.sensor);
    StateKnown(cfg, sensed, now, confirmed, answers.local, answers.state);
    ExtendedKeeps(cfg, verified, now, answers);
    RefreshReads(cfg, l, now, answers);
    VerifyPublishes(cfg, l, sensed, now, confirmed, answers);
    VerifiedGates(cfg, l, now, confirmed, answers);
    ExtendedPublishes(cfg, l, verified, now, answers);
  }
}
