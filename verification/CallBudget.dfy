/** How many calls scheduled polling can make of each kind within a stretch of time. */
module CallBudget {
  import opened Bytes
  import opened LockStore
  import opened LockCoordinator
  import opened CoordinatorRuns

  // ---------------------------------------------------------------- spaced times

  predicate Spaced(ts: seq<Time>, gap: Time) {
    forall i, j :: 0 <= i < j < |ts| ==> ts[i] + (j - i) * gap <= ts[j]
  }

  /** Times at least `gap` apart, within a window, the last not after the gate. */
  predicate Kept(ts: seq<Time>, gate: Option<Time>, gap: Time, start: Time, length: Time) {
    && Spaced(ts, gap)
    && (forall i :: 0 <= i < |ts| ==> start <= ts[i] <= start + length)
    && (ts != [] ==> gate.Some? && ts[|ts| - 1] <= gate.value)
  }

  lemma KeptOneMore(ts: seq<Time>, gate: Option<Time>, gap: Time, start: Time, length: Time, now: Time)
    requires Kept(ts, gate, gap, start, length) && start <= now <= start + length
    requires gate.Some? ==> gate.value + gap <= now
    ensures Kept(ts + [now], Some(now), gap, start, length)
  {
    forall i, j | 0 <= i < j < |ts| + 1
      ensures (ts + [now])[i] + (j - i) * gap <= (ts + [now])[j]
    {
      if j == |ts| && i < |ts| - 1 {
        assert ts[i] + (|ts| - 1 - i) * gap <= ts[|ts| - 1];
        Distribute(|ts| - 1 - i, gap);
      }
    }
  }

  lemma Distribute(n: int, gap: int)
    ensures (n + 1) * gap == n * gap + gap
  {
  }

  /** So many times fit in the window. */
  lemma SpacedCount(ts: seq<Time>, gate: Option<Time>, gap: Time, start: Time, length: Time)
    requires Kept(ts, gate, gap, start, length) && gap > 0 && length >= 0
    ensures |ts| <= length / gap + 1
  {
    if |ts| > 1 {
      assert ts[0] + (|ts| - 1) * gap <= ts[|ts| - 1];
      Quotient(|ts| - 1, gap, length);
    }
  }

  lemma Quotient(n: int, gap: int, length: int)
    requires gap > 0 && n * gap <= length
    ensures n <= length / gap
  {
    var q := length / gap;
    Distribute(q, gap);
    assert n >= q + 1 ==> n * gap >= (q + 1) * gap;
  }

  // ---------------------------------------------------------------- scheduled runs

  function LastPoll(es: seq<Event>): Option<Time> {
    if es == [] then None
    else if es[|es| - 1].Poll? then Some(es[|es| - 1].now)
    else LastPoll(es[..|es| - 1])
  }

  /** Polls at least `interval` apart and within the window; between them pushes, auto-locks and commands, but no
      restart and nobody refreshing codes or state by hand. */
  predicate Paced(es: seq<Event>, interval: Time, start: Time, length: Time) {
    es == [] ||
    var rest, e := es[..|es| - 1], es[|es| - 1];
    && Paced(rest, interval, start, length)
    && !Forgets(e) && !e.RefreshCodes?
    && (e.Poll? ==>
        && start <= e.now <= start + length
        && (LastPoll(rest).Some? ==> LastPoll(rest).value + interval <= e.now))
  }

  /** Every poll of the run succeeds. */
  predicate Succeeding(cfg: Config, l: Lock, es: seq<Event>) {
    es == [] ||
    var rest, e := es[..|es| - 1], es[|es| - 1];
    && Succeeding(cfg, l, rest)
    && (e.Poll? ==> PollSucceeds(cfg, Run(cfg, l, rest), e.now, e.webhookConfirmed, e.answers))
  }

  predicate Scheduled(cfg: Config, l: Lock, es: seq<Event>, interval: Time, start: Time, length: Time) {
    Paced(es, interval, start, length) && Succeeding(cfg, l, es)
  }

  lemma QuietStep(cfg: Config, l: Lock, e: Event)
    requires !e.Poll? && !Forgets(e) && !e.RefreshCodes?
    ensures Step(cfg, l, e).calls == l.calls && Step(cfg, l, e).gates == l.gates && Step(cfg, l, e).record == l.record
    ensures Step(cfg, l, e).data.doorSensor == l.data.doorSensor
    ensures l.data.sensor.Some? <==> Step(cfg, l, e).data.sensor.Some?
    ensures l.data.sensor.Some? ==>
              && Step(cfg, l, e).data.sensor.value.battery == l.data.sensor.value.battery
              && Step(cfg, l, e).data.sensor.value.lastFetched == l.data.sensor.value.lastFetched
  {
  }

  // ---------------------------------------------------------------- the slow calls

  predicate IsSlow(endpoint: Endpoint) {
    endpoint != DoorSensor && endpoint != OpenState
  }

  function GateOf(gates: Gates, endpoint: Endpoint): Option<Time>
    requires IsSlow(endpoint)
  {
    match endpoint
    case LockDetail => gates.details
    case PassageMode => gates.passage
    case LockGateways => gates.gateways
    case _ => gates.codes
  }

  /** A slow call is made when it is due, and moves its gate. */
  predicate AskedWhenDue(cfg: Config, before: Attempt, after: Attempt, endpoint: Endpoint, now: Time)
    requires IsSlow(endpoint)
  {
    var due := Due(GateOf(before.gates, endpoint), now, cfg.slowInterval)
          && (endpoint.LockGateways? ==> cfg.hasGateway);
    && Asked(after.calls, endpoint) == Asked(before.calls, endpoint) + (if due then [now] else [])
    && GateOf(after.gates, endpoint) == if due then Some(now) else GateOf(before.gates, endpoint)
  }

  predicate NotAsked(before: Attempt, after: Attempt, endpoint: Endpoint)
    requires IsSlow(endpoint)
  {
    && Asked(after.calls, endpoint) == Asked(before.calls, endpoint)
    && GateOf(after.gates, endpoint) == GateOf(before.gates, endpoint)
  }

  lemma DetailsAsks(cfg: Config, a: Attempt, now: Time, reply: Reply<Details>, endpoint: Endpoint)
    requires IsSlow(endpoint) && !FetchDetails(cfg, a, now, reply).failed
    ensures var after := FetchDetails(cfg, a, now, reply);
            if endpoint.LockDetail? then AskedWhenDue(cfg, a, after, endpoint, now) else NotAsked(a, after, endpoint)
  {
    AskedByDetails(cfg, a, now, reply, endpoint);
  }

  lemma PassageAsks(cfg: Config, a: Attempt, now: Time, reply: Reply<nat>, endpoint: Endpoint)
    requires IsSlow(endpoint) && !FetchPassageMode(cfg, a, now, reply).failed
    ensures var after := FetchPassageMode(cfg, a, now, reply);
            if endpoint.PassageMode? then AskedWhenDue(cfg, a, after, endpoint, now) else NotAsked(a, after, endpoint)
  {
    AskedByPassage(cfg, a, now, reply, endpoint);
  }

  lemma GatewaysAsks(cfg: Config, a: Attempt, now: Time, reply: Reply<seq<nat>>, endpoint: Endpoint)
    requires IsSlow(endpoint) && !FetchGateways(cfg, a, now, reply).failed
    ensures var after := FetchGateways(cfg, a, now, reply);
            if endpoint.LockGateways? then AskedWhenDue(cfg, a, after, endpoint, now) else NotAsked(a, after, endpoint)
  {
    AskedByGateways(cfg, a, now, reply, endpoint);
  }

  lemma CodesGate(cfg: Config, a: Attempt, now: Time, ps: Reply<seq<nat>>, es: Reply<seq<nat>>)
    ensures var moves := !a.failed && Due(a.gates.codes, now, cfg.slowInterval) && ps.Answer? && es.Answer?;
            FetchCodes(cfg, a, now, ps, es).gates == if moves then a.gates.(codes := Some(now)) else a.gates
  {
  }

  lemma CodesAsks(cfg: Config, a: Attempt, now: Time, ps: Reply<seq<nat>>, es: Reply<seq<nat>>, endpoint: Endpoint)
    requires IsSlow(endpoint) && !FetchCodes(cfg, a, now, ps, es).failed
    ensures var after := FetchCodes(cfg, a, now, ps, es);
            if endpoint.Passcodes? || endpoint.Ekeys? then AskedWhenDue(cfg, a, after, endpoint, now)
            else NotAsked(a, after, endpoint)
  {
    AskedByCodes(cfg, a, now, ps, es, endpoint);
    CodesGate(cfg, a, now, ps, es);
    CodesAnswered(cfg, a, now, ps, es);
  }

  lemma CodesAnswered(cfg: Config, a: Attempt, now: Time, ps: Reply<seq<nat>>, es: Reply<seq<nat>>)
    requires !FetchCodes(cfg, a, now, ps, es).failed
    ensures !a.failed && (Due(a.gates.codes, now, cfg.slowInterval) ==> ps.Answer? && es.Answer?)
  {
  }

  lemma ExtendedAsks(cfg: Config, a: Attempt, now: Time, answers: Answers, endpoint: Endpoint)
    requires IsSlow(endpoint) && !Extended(cfg, a, now, answers).failed
    ensures var after := Extended(cfg, a, now, answers);
            if endpoint.LockDetail? then NotAsked(a, after, endpoint) else AskedWhenDue(cfg, a, after, endpoint, now)
  {
    var passage := FetchPassageMode(cfg, a, now, answers.passage);
    var linked := FetchGateways(cfg, passage, now, answers.gateways);
    PassageAsks(cfg, a, now, answers.passage, endpoint);
    GatewaysAsks(cfg, passage, now, answers.gateways, endpoint);
    CodesAsks(cfg, linked, now, answers.passcodes, answers.ekeys, endpoint);
  }

  lemma SensedAsks(cfg: Config, a: Attempt, now: Time, answers: Answers, endpoint: Endpoint)
    requires IsSlow(endpoint)
    requires !RefreshSensor(FetchDetails(cfg, a, now, answers.details), now, answers.sensor).failed
    ensures var after := RefreshSensor(FetchDetails(cfg, a, now, answers.details), now, answers.sensor);
            if endpoint.LockDetail? then AskedWhenDue(cfg, a, after, endpoint, now) else NotAsked(a, after, endpoint)
  {
    var detailed := FetchDetails(cfg, a, now, answers.details);
    SensorKeeps(detailed, now, answers.sensor);
    DetailsAsks(cfg, a, now, answers.details, endpoint);
    AskedBySensor(detailed, now, answers.sensor, endpoint);
  }

  lemma VerifiedAsks(cfg: Config, a: Attempt, now: Time, confirmed: bool, answers: Answers, endpoint: Endpoint)
    requires IsSlow(endpoint) && !Verified(cfg, a, now, confirmed, answers).failed
    ensures var after := Verified(cfg, a, now, confirmed, answers);
            if endpoint.LockDetail? then AskedWhenDue(cfg, a, after, endpoint, now) else NotAsked(a, after, endpoint)
  {
    var sensed := RefreshSensor(FetchDetails(cfg, a, now, answers.details), now, answers.sensor);
    StateKnown(cfg, sensed, now, confirmed, answers.local, answers.state);
    SensedAsks(cfg, a, now, answers, endpoint);
    AskedByVerify(cfg, sensed, now, confirmed, answers.local, answers.state, endpoint);
  }

  lemma PollAsks(cfg: Config, l: Lock, now: Time, confirmed: bool, answers: Answers, endpoint: Endpoint)
    requires IsSlow(endpoint) && PollSucceeds(cfg, l, now, confirmed, answers)
    ensures AskedWhenDue(cfg, Start(l), Attempted(cfg, Start(l), now, confirmed, answers), endpoint, now)
  {
    var verified := Verified(cfg, Start(l), now, confirmed, answers);
    ExtendedKeeps(cfg, verified, now, answers);
    VerifiedAsks(cfg, Start(l), now, confirmed, answers, endpoint);
    ExtendedAsks(cfg, verified, now, answers, endpoint);
  }

  /** The other side of the budget: after a poll that succeeds, nothing it fetches slowly is a slow interval old. */
  lemma SlowDataIsFresh(cfg: Config, l: Lock, now: Time, confirmed: bool, answers: Answers, endpoint: Endpoint)
    requires IsSlow(endpoint) && PollSucceeds(cfg, l, now, confirmed, answers) && cfg.slowInterval > 0
    requires endpoint.LockGateways? ==> cfg.hasGateway
    ensures var fetched := GateOf(PollStep(cfg, l, now, confirmed, answers).gates, endpoint);
            fetched.Some? && now - cfg.slowInterval < fetched.value
  {
    PollAsks(cfg, l, now, confirmed, answers, endpoint);
  }

  ghost predicate SlowKept(cfg: Config, l: Lock, start: Time, length: Time, endpoint: Endpoint)
    requires IsSlow(endpoint)
  {
    Kept(Asked(l.calls, endpoint), GateOf(l.gates, endpoint), cfg.slowInterval, start, length)
  }

  lemma SlowKeptByPoll(cfg: Config, l: Lock, now: Time, confirmed: bool, answers: Answers, start: Time,
          length: Time, endpoint: Endpoint)
    requires IsSlow(endpoint) && SlowKept(cfg, l, start, length, endpoint)
    requires PollSucceeds(cfg, l, now, confirmed, answers) && start <= now <= start + length
    ensures SlowKept(cfg, PollStep(cfg, l, now, confirmed, answers), start, length, endpoint)
  {
    PollAsks(cfg, l, now, confirmed, answers, endpoint);
    if Due(GateOf(l.gates, endpoint), now, cfg.slowInterval) {
      KeptOneMore(Asked(l.calls, endpoint), GateOf(l.gates, endpoint), cfg.slowInterval, start, length, now);
    }
  }

  lemma {:induction false} SlowCallsKept(cfg: Config, l: Lock, es: seq<Event>, interval: Time, start: Time,
          length: Time, endpoint: Endpoint)
    requires IsSlow(endpoint) && l.calls == [] && Scheduled(cfg, l, es, interval, start, length)
    ensures SlowKept(cfg, Run(cfg, l, es), start, length, endpoint)
  {
    if es != [] {
      var rest, e := es[..|es| - 1], es[|es| - 1];
      SlowCallsKept(cfg, l, rest, interval, start, length, endpoint);
      if e.Poll? {
        SlowKeptByPoll(cfg, Run(cfg, l, rest), e.now, e.webhookConfirmed, e.answers, start, length, endpoint);
      } else {
        QuietStep(cfg, Run(cfg, l, rest), e);
      }
    }
  }

  /** Each slow call is made at most once, and once more for every whole slow interval of the window. */
  lemma SlowCallBudget(cfg: Config, l: Lock, es: seq<Event>, interval: Time, start: Time, length: Time,
          endpoint: Endpoint)
    requires IsSlow(endpoint) && l.calls == [] && Scheduled(cfg, l, es, interval, start, length)
    requires cfg.slowInterval > 0 && length >= 0
    ensures |Asked(Run(cfg, l, es).calls, endpoint)| <= length / cfg.slowInterval + 1
    ensures endpoint.LockGateways? && !cfg.hasGateway ==> Asked(Run(cfg, l, es).calls, endpoint) == []
  {
    var after := Run(cfg, l, es);
    SlowCallsKept(cfg, l, es, interval, start, length, endpoint);
    SpacedCount(Asked(after.calls, endpoint), GateOf(after.gates, endpoint), cfg.slowInterval, start, length);
    if !cfg.hasGateway {
      NoGatewayCalls(cfg, l, es, interval, start, length);
    }
  }

  // ---------------------------------------------------------------- slow calls whether polls succeed or not

  /** The cloud answers all that has to be answered before an endpoint's gate moves. */
  predicate Answered(answers: Answers, endpoint: Endpoint)
    requires IsSlow(endpoint)
  {
    match endpoint
    case LockDetail => answers.details.Answer?
    case PassageMode => answers.passage.Answer?
    case LockGateways => answers.gateways.Answer?
    case _ => answers.passcodes.Answer? && answers.ekeys.Answer?
  }

  /** A slow call is made or not; its gate moves when it is made and answered. */
  predicate AskedIf(asks: bool, before: Attempt, after: Attempt, endpoint: Endpoint, now: Time, answered: bool)
    requires IsSlow(endpoint)
  {
    && Asked(after.calls, endpoint) == Asked(before.calls, endpoint) + (if asks then [now] else [])
    && GateOf(after.gates, endpoint) == if asks && answered then Some(now) else GateOf(before.gates, endpoint)
  }

  lemma AskedInTurn(p: bool, q: bool, a: Attempt, b: Attempt, c: Attempt, endpoint: Endpoint, now: Time, answered: bool)
    requires IsSlow(endpoint) && !(p && q)
    requires AskedIf(p, a, b, endpoint, now, answered) && AskedIf(q, b, c, endpoint, now, answered)
    ensures AskedIf(p || q, a, c, endpoint, now, answered)
  {
  }

  lemma DetailsAskedIf(cfg: Config, a: Attempt, now: Time, answers: Answers, endpoint: Endpoint) returns (asks: bool)
    requires IsSlow(endpoint)
    ensures AskedIf(asks, a, FetchDetails(cfg, a, now, answers.details), endpoint, now, Answered(answers, endpoint))
    ensures asks ==> endpoint.LockDetail? && Due(GateOf(a.gates, endpoint), now, cfg.slowInterval)
  {
    asks := endpoint.LockDetail? && !a.failed && Due(a.gates.details, now, cfg.slowInterval);
    AskedByDetails(cfg, a, now, answers.details, endpoint);
  }

  lemma SensorAskedIf(a: Attempt, now: Time, answers: Answers, endpoint: Endpoint)
    requires IsSlow(endpoint)
    ensures AskedIf(false, a, RefreshSensor(a, now, answers.sensor), endpoint, now, Answered(answers, endpoint))
  {
    SensorKeeps(a, now, answers.sensor);
    AskedBySensor(a, now, answers.sensor, endpoint);
  }

  lemma StateAskedIf(cfg: Config, a: Attempt, now: Time, confirmed: bool, answers: Answers, endpoint: Endpoint)
    requires IsSlow(endpoint)
    ensures var after := VerifyState(cfg, a, now, confirmed, answers.local, answers.state);
            AskedIf(false, a, after, endpoint, now, Answered(answers, endpoint))
  {
    StateKnown(cfg, a, now, confirmed, answers.local, answers.state);
    AskedByVerify(cfg, a, now, confirmed, answers.local, answers.state, endpoint);
  }

  lemma VerifiedAskedIf(cfg: Config, a: Attempt, now: Time, confirmed: bool, answers: Answers, endpoint: Endpoint)
    returns (asks: bool)
    requires IsSlow(endpoint)
    ensures var after := Verified(cfg, a, now, confirmed, answers);
            AskedIf(asks, a, after, endpoint, now, Answered(answers, endpoint))
    ensures asks ==> endpoint.LockDetail? && Due(GateOf(a.gates, endpoint), now, cfg.slowInterval)
  {
    var detailed := FetchDetails(cfg, a, now, answers.details);
    var sensed := RefreshSensor(detailed, now, answers.sensor);
    var after, answered := Verified(cfg, a, now, confirmed, answers), Answered(answers, endpoint);
    asks := DetailsAskedIf(cfg, a, now, answers, endpoint);
    SensorAskedIf(detailed, now, answers, endpoint);
    StateAskedIf(cfg, sensed, now, confirmed, answers, endpoint);
    AskedInTurn(asks, false, a, detailed, sensed, endpoint, now, answered);
    AskedInTurn(asks, false, a, sensed, after, endpoint, now, answered);
  }

  lemma PassageAskedIf(cfg: Config, a: Attempt, now: Time, answers: Answers, endpoint: Endpoint) returns (asks: bool)
    requires IsSlow(endpoint)
    ensures AskedIf(asks, a, FetchPassageMode(cfg, a, now, answers.passage), endpoint, now, Answered(answers, endpoint))
    ensures asks ==> endpoint.PassageMode? && Due(GateOf(a.gates, endpoint), now, cfg.slowInterval)
  {
    asks := endpoint.PassageMode? && !a.failed && Due(a.gates.passage, now, cfg.slowInterval);
    AskedByPassage(cfg, a, now, answers.passage, endpoint);
  }

  lemma GatewaysAskedIf(cfg: Config, a: Attempt, now: Time, answers: Answers, endpoint: Endpoint) returns (asks: bool)
    requires IsSlow(endpoint)
    ensures AskedIf(asks, a, FetchGateways(cfg, a, now, answers.gateways), endpoint, now, Answered(answers, endpoint))
    ensures asks ==> endpoint.LockGateways? && cfg.hasGateway && Due(GateOf(a.gates, endpoint), now, cfg.slowInterval)
  {
    asks := endpoint.LockGateways? && !a.failed && cfg.hasGateway && Due(a.gates.gateways, now, cfg.slowInterval);
    AskedByGateways(cfg, a, now, answers.gateways, endpoint);
  }

  lemma AskedAndMoved(asks: bool, before: Attempt, after: Attempt, endpoint: Endpoint, now: Time, answered: bool)
    requires IsSlow(endpoint)
    requires Asked(after.calls, endpoint) == Asked(before.calls, endpoint) + if asks then [now] else []
    requires GateOf(after.gates, endpoint) == if asks && answered then Some(now) else GateOf(before.gates, endpoint)
    ensures AskedIf(asks, before, after, endpoint, now, answered)
  {
  }

  lemma CodesAskedIf(cfg: Config, a: Attempt, now: Time, answers: Answers, endpoint: Endpoint) returns (asks: bool)
    requires IsSlow(endpoint)
    ensures var after := FetchCodes(cfg, a, now, answers.passcodes, answers.ekeys);
            AskedIf(asks, a, after, endpoint, now, Answered(answers, endpoint))
    ensures asks ==> (endpoint.Passcodes? || endpoint.Ekeys?) && Due(GateOf(a.gates, endpoint), now, cfg.slowInterval)
  {
    asks := !a.failed && Due(a.gates.codes, now, cfg.slowInterval)
            && (endpoint.Passcodes? || (endpoint.Ekeys? && answers.passcodes.Answer?));
    var after := FetchCodes(cfg, a, now, answers.passcodes, answers.ekeys);
    AskedByCodes(cfg, a, now, answers.passcodes, answers.ekeys, endpoint);
    CodesGate(cfg, a, now, answers.passcodes, answers.ekeys);
    AskedAndMoved(asks, a, after, endpoint, now, Answered(answers, endpoint));
  }

  lemma ExtendedAskedIf(cfg: Config, a: Attempt, now: Time, answers: Answers, endpoint: Endpoint) returns (asks: bool)
    requires IsSlow(endpoint)
    ensures AskedIf(asks, a, Extended(cfg, a, now, answers), endpoint, now, Answered(answers, endpoint))
    ensures asks ==> !endpoint.LockDetail? && Due(GateOf(a.gates, endpoint), now, cfg.slowInterval)
    ensures asks && endpoint.LockGateways? ==> cfg.hasGateway
  {
    var passage := FetchPassageMode(cfg, a, now, answers.passage);
    var linked := FetchGateways(cfg, passage, now, answers.gateways);
    var after, answered := FetchCodes(cfg, linked, now, answers.passcodes, answers.ekeys), Answered(answers, endpoint);
    var p := PassageAskedIf(cfg, a, now, answers, endpoint);
    var g := GatewaysAskedIf(cfg, passage, now, answers, endpoint);
    var c := CodesAskedIf(cfg, linked, now, answers, endpoint);
    AskedInTurn(p, g, a, passage, linked, endpoint, now, answered);
    AskedInTurn(p || g, c, a, linked, after, endpoint, now, answered);
    asks := p || g || c;
  }

  /** Whatever fails in it, a poll makes each slow call once at most, and only when it is due. */
  lemma PollAsksOnce(cfg: Config, l: Lock, now: Time, confirmed: bool, answers: Answers, endpoint: Endpoint)
    returns (asks: bool)
    requires IsSlow(endpoint)
    ensures var after := Start(PollStep(cfg, l, now, confirmed, answers));
            AskedIf(asks, Start(l), after, endpoint, now, Answered(answers, endpoint))
    ensures asks ==> Due(GateOf(l.gates, endpoint), now, cfg.slowInterval)
    ensures asks && endpoint.LockGateways? ==> cfg.hasGateway
  {
    asks := false;
    if cfg.connectable {
      var a, verified := Start(l), Verified(cfg, Start(l), now, confirmed, answers);
      var v := VerifiedAskedIf(cfg, a, now, confirmed, answers, endpoint);
      var x := ExtendedAskedIf(cfg, verified, now, answers, endpoint);
      AskedInTurn(v, x, a, verified, Extended(cfg, verified, now, answers), endpoint, now, Answered(answers, endpoint));
      asks := v || x;
    }
  }

  /** When a slow call was made and answered, codes and keys both if it is for one of them. */
  function Completed(cfg: Config, l: Lock, es: seq<Event>, endpoint: Endpoint): seq<Time>
    requires IsSlow(endpoint)
  {
    if es == [] then []
    else
      var rest, e := es[..|es| - 1], es[|es| - 1];
      var before := Run(cfg, l, rest);
      Completed(cfg, l, rest, endpoint)
      + if e.Poll? && Answered(e.answers, endpoint)
           && Asked(Step(cfg, before, e).calls, endpoint) != Asked(before.calls, endpoint)
        then [e.now] else []
  }

  lemma {:induction false} SlowQueriesKept(cfg: Config, l: Lock, es: seq<Event>, interval: Time, start: Time,
          length: Time, endpoint: Endpoint)
    requires IsSlow(endpoint) && l.calls == [] && Paced(es, interval, start, length) && interval >= 0
    ensures Kept(Asked(Run(cfg, l, es).calls, endpoint), LastPoll(es), interval, start, length)
  {
    if es != [] {
      var rest, e := es[..|es| - 1], es[|es| - 1];
      var before := Run(cfg, l, rest);
      SlowQueriesKept(cfg, l, rest, interval, start, length, endpoint);
      if e.Poll? {
        var asks := PollAsksOnce(cfg, before, e.now, e.webhookConfirmed, e.answers, endpoint);
        KeptOneMore(Asked(before.calls, endpoint), LastPoll(rest), interval, start, length, e.now);
      } else {
        QuietStep(cfg, before, e);
      }
    }
  }

  lemma KeptIf(ts: seq<Time>, gate: Option<Time>, gap: Time, start: Time, length: Time, now: Time, more: bool)
    requires Kept(ts, gate, gap, start, length) && start <= now <= start + length
    requires more && gate.Some? ==> gate.value + gap <= now
    ensures Kept(ts + (if more then [now] else []), if more then Some(now) else gate, gap, start, length)
  {
    if more {
      KeptOneMore(ts, gate, gap, start, length, now);
    } else {
      assert ts + [] == ts;
    }
  }

  lemma AsksIff(asks: bool, before: Attempt, after: Attempt, endpoint: Endpoint, now: Time, answered: bool)
    requires IsSlow(endpoint) && AskedIf(asks, before, after, endpoint, now, answered)
    ensures asks <==> Asked(after.calls, endpoint) != Asked(before.calls, endpoint)
  {
    if asks {
      assert |Asked(after.calls, endpoint)| == |Asked(before.calls, endpoint)| + 1;
    }
  }

  lemma CompletedNext(cfg: Config, l: Lock, rest: seq<Event>, e: Event, endpoint: Endpoint)
    requires IsSlow(endpoint) && e.Poll?
    ensures var before := Run(cfg, l, rest);
            Completed(cfg, l, rest + [e], endpoint) == Completed(cfg, l, rest, endpoint)
            + if Answered(e.answers, endpoint)
                 && Asked(Step(cfg, before, e).calls, endpoint) != Asked(before.calls, endpoint)
              then [e.now] else []
  {
    assert (rest + [e])[..|rest|] == rest;
  }

  lemma CompletedByPoll(cfg: Config, l: Lock, rest: seq<Event>, e: Event, endpoint: Endpoint) returns (done: bool)
    requires IsSlow(endpoint) && e.Poll?
    ensures Completed(cfg, l, rest + [e], endpoint) == Completed(cfg, l, rest, endpoint) + if done then [e.now] else []
    ensures var before := Run(cfg, l, rest);
            && (done ==> Due(GateOf(before.gates, endpoint), e.now, cfg.slowInterval))
            && GateOf(Step(cfg, before, e).gates, endpoint)
            == if done then Some(e.now) else GateOf(before.gates, endpoint)
  {
    var before, answered := Run(cfg, l, rest), Answered(e.answers, endpoint);
    var asks := PollAsksOnce(cfg, before, e.now, e.webhookConfirmed, e.answers, endpoint);
    AsksIff(asks, Start(before), Start(Step(cfg, before, e)), endpoint, e.now, answered);
    CompletedNext(cfg, l, rest, e, endpoint);
    done := asks && answered;
  }

  ghost predicate CompletedSpaced(cfg: Config, l: Lock, es: seq<Event>, start: Time, length: Time, endpoint: Endpoint)
    requires IsSlow(endpoint)
  {
    Kept(Completed(cfg, l, es, endpoint), GateOf(Run(cfg, l, es).gates, endpoint), cfg.slowInterval, start, length)
  }

  lemma CompletedSpacedByPoll(cfg: Config, l: Lock, rest: seq<Event>, e: Event, start: Time, length: Time,
          endpoint: Endpoint)
    requires IsSlow(endpoint) && e.Poll? && start <= e.now <= start + length
    requires CompletedSpaced(cfg, l, rest, start, length, endpoint)
    ensures CompletedSpaced(cfg, l, rest + [e], start, length, endpoint)
  {
    var done := CompletedByPoll(cfg, l, rest, e, endpoint);
    assert (rest + [e])[..|rest|] == rest;
    KeptIf(
      Completed(cfg, l, rest, endpoint), GateOf(Run(cfg, l, rest).gates, endpoint), cfg.slowInterval, start, length,
      e.now, done);
  }

  lemma CompletedSpacedOtherwise(cfg: Config, l: Lock, rest: seq<Event>, e: Event, start: Time, length: Time,
          endpoint: Endpoint)
    requires IsSlow(endpoint) && !e.Poll? && !Forgets(e) && !e.RefreshCodes?
    requires CompletedSpaced(cfg, l, rest, start, length, endpoint)
    ensures CompletedSpaced(cfg, l, rest + [e], start, length, endpoint)
  {
    assert (rest + [e])[..|rest|] == rest;
    QuietStep(cfg, Run(cfg, l, rest), e);
    assert Completed(cfg, l, rest, endpoint) + [] == Completed(cfg, l, rest, endpoint);
  }

  lemma {:induction false} CompletedStaysSpaced(cfg: Config, l: Lock, es: seq<Event>, interval: Time, start: Time,
          length: Time, endpoint: Endpoint)
    requires IsSlow(endpoint) && Paced(es, interval, start, length)
    ensures CompletedSpaced(cfg, l, es, start, length, endpoint)
  {
    if es != [] {
      var rest, e := es[..|es| - 1], es[|es| - 1];
      assert rest + [e] == es;
      CompletedStaysSpaced(cfg, l, rest, interval, start, length, endpoint);
      if e.Poll? {
        CompletedSpacedByPoll(cfg, l, rest, e, start, length, endpoint);
      } else {
        CompletedSpacedOtherwise(cfg, l, rest, e, start, length, endpoint);
      }
    }
  }

  /** Whatever polls fail: each slow call is made at most once and once more for every whole poll interval of the
      window, and answered at most once and once more for every whole slow interval. */
  lemma SlowCallBudgetOfAnyPolls(cfg: Config, l: Lock, es: seq<Event>, interval: Time, start: Time, length: Time,
          endpoint: Endpoint)
    requires IsSlow(endpoint) && l.calls == [] && Paced(es, interval, start, length)
    requires interval > 0 && cfg.slowInterval > 0 && length >= 0
    ensures |Asked(Run(cfg, l, es).calls, endpoint)| <= length / interval + 1
    ensures |Completed(cfg, l, es, endpoint)| <= length / cfg.slowInterval + 1
  {
    var after := Run(cfg, l, es);
    SlowQueriesKept(cfg, l, es, interval, start, length, endpoint);
    SpacedCount(Asked(after.calls, endpoint), LastPoll(es), interval, start, length);
    CompletedStaysSpaced(cfg, l, es, interval, start, length, endpoint);
    SpacedCount(Completed(cfg, l, es, endpoint), GateOf(after.gates, endpoint), cfg.slowInterval, start, length);
  }

  lemma {:induction false} NoGatewayCalls(cfg: Config, l: Lock, es: seq<Event>, interval: Time, start: Time,
          length: Time)
    requires l.calls == [] && Paced(es, interval, start, length) && !cfg.hasGateway
    ensures Asked(Run(cfg, l, es).calls, LockGateways) == []
  {
    if es != [] {
      var rest, e := es[..|es| - 1], es[|es| - 1];
      NoGatewayCalls(cfg, l, rest, interval, start, length);
      if e.Poll? {
        var asks := PollAsksOnce(cfg, Run(cfg, l, rest), e.now, e.webhookConfirmed, e.answers, LockGateways);
      } else {
        QuietStep(cfg, Run(cfg, l, rest), e);
      }
    }
  }

  // ---------------------------------------------------------------- the state query

  lemma {:induction false} StateQueriesKept(cfg: Config, l: Lock, es: seq<Event>, interval: Time, start: Time,
          length: Time)
    requires l.calls == [] && Paced(es, interval, start, length) && interval >= 0
    ensures Kept(Asked(Run(cfg, l, es).calls, OpenState), LastPoll(es), interval, start, length)
  {
    if es != [] {
      var rest, e := es[..|es| - 1], es[|es| - 1];
      var before := Run(cfg, l, rest);
      StateQueriesKept(cfg, l, rest, interval, start, length);
      if e.Poll? {
        StateAskedByPoll(cfg, before, e.now, e.webhookConfirmed, e.answers);
        KeptOneMore(Asked(before.calls, OpenState), LastPoll(rest), interval, start, length, e.now);
      } else {
        QuietStep(cfg, before, e);
      }
    }
  }

  /** Whether the polls succeed or not, the state is asked for at most once, and once more for every whole poll interval
      of the window. */
  lemma StateQueryBudget(cfg: Config, l: Lock, es: seq<Event>, interval: Time, start: Time, length: Time)
    requires l.calls == [] && Paced(es, interval, start, length) && interval > 0 && length >= 0
    ensures |Asked(Run(cfg, l, es).calls, OpenState)| <= length / interval + 1
  {
    StateQueriesKept(cfg, l, es, interval, start, length);
    SpacedCount(Asked(Run(cfg, l, es).calls, OpenState), LastPoll(es), interval, start, length);
  }

  /** In webhook-only mode with a confirmed webhook and a cloud that answers, one query at the start is all. */
  lemma {:induction false} OneStartUpQuery(cfg: Config, l: Lock, es: seq<Event>, interval: Time, start: Time,
          length: Time)
    requires l.calls == [] && Scheduled(cfg, l, es, interval, start, length) && cfg.webhookOnly
    requires forall i :: 0 <= i < |es| && es[i].Poll? ==> es[i].webhookConfirmed && es[i].answers.state.Answer?
    ensures |Asked(Run(cfg, l, es).calls, OpenState)| <= if Run(cfg, l, es).data.locked.Some? then 1 else 0
  {
    if es != [] {
      var rest, e := es[..|es| - 1], es[|es| - 1];
      OneStartUpQuery(cfg, l, rest, interval, start, length);
      if e.Poll? {
        StateAskedByPoll(cfg, Run(cfg, l, rest), e.now, e.webhookConfirmed, e.answers);
        PollPublishesIff(cfg, Run(cfg, l, rest), e.now, e.webhookConfirmed, e.answers);
      } else {
        QuietStep(cfg, Run(cfg, l, rest), e);
        if Run(cfg, l, rest).data.locked.Some? {
          QuietKeepsKnown(cfg, Run(cfg, l, rest), e);
        }
      }
    }
  }

  lemma QuietKeepsKnown(cfg: Config, l: Lock, e: Event)
    requires !e.Poll? && !Forgets(e) && l.data.locked.Some?
    ensures Step(cfg, l, e).data.locked.Some?
  {
  }

  // ---------------------------------------------------------------- the sensor query

  /** Replies that leave the sensor where it was found: it stays a feature of the lock, and one found has a battery. */
  predicate KeepsSensor(e: Event) {
    e.Poll? ==>
      && (e.answers.details.Answer? ==> e.answers.details.value.doorSensor)
      && KeepsBattery(e.answers.sensor)
  }

  predicate KeepsBattery(reply: Reply<Option<SensorReply>>) {
    reply.Answer? && reply.value.Some? ==> reply.value.value.battery.Some?
  }

  /** What holds the next sensor query back for a day: the last fetch from a sensor that is there, the last failure
      counted while that is not settled, and after a verdict the recheck itself. */
  function SensorGate(a: Attempt): Option<Time> {
    var asked := Asked(a.calls, DoorSensor);
    if Present(a.data.sensor) then a.data.sensor.value.lastFetched
    else if !ConfirmedAbsent(a.record) then a.record.lastFailed
    else if asked == [] then None
    else Some(asked[|asked| - 1])
  }

  /** The lock has the sensor feature, the queries so far are a day apart and held back by the gate, and a verdict
      allows another one only before the first. */
  ghost predicate SensorSpaced(a: Attempt, start: Time, length: Time) {
    && a.data.doorSensor
    && Kept(Asked(a.calls, DoorSensor), SensorGate(a), DAY, start, length)
    && (!Present(a.data.sensor) && ConfirmedAbsent(a.record) ==>
          Asked(a.calls, DoorSensor) == [] || a.gates.recheckDone)
  }

  lemma PresentSensorSpaced(a: Attempt, now: Time, reply: Reply<Option<SensorReply>>, start: Time, length: Time)
    requires SensorSpaced(a, start, length) && start <= now <= start + length
    requires Present(a.data.sensor) && KeepsBattery(reply) && !RefreshSensor(a, now, reply).failed
    ensures SensorSpaced(RefreshSensor(a, now, reply), start, length)
  {
    AskedOneMore(a.calls, ApiCall(DoorSensor, now), DoorSensor);
    var last := a.data.sensor.value.lastFetched;
    if last.None? || last.value + DAY < now {
      KeptOneMore(Asked(a.calls, DoorSensor), last, DAY, start, length, now);
    }
  }

  lemma ProbedSensorSpaced(a: Attempt, now: Time, reply: Reply<Option<SensorReply>>, start: Time, length: Time)
    requires SensorSpaced(a, start, length) && start <= now <= start + length
    requires !Present(a.data.sensor) && KeepsBattery(reply) && !RefreshSensor(a, now, reply).failed
    ensures SensorSpaced(RefreshSensor(a, now, reply), start, length)
  {
    AskedOneMore(a.calls, ApiCall(DoorSensor, now), DoorSensor);
    if !a.failed && ProbeDue(a.record, a.gates.recheckDone, now) {
      KeptOneMore(Asked(a.calls, DoorSensor), SensorGate(a), DAY, start, length, now);
    }
  }

  /** What leaves the sensor, the record, the recheck and the sensor queries alone keeps them spaced. */
  lemma SameSensorSpaced(a: Attempt, after: Attempt, start: Time, length: Time)
    requires SensorSpaced(a, start, length) && after.data.doorSensor
    requires Asked(after.calls, DoorSensor) == Asked(a.calls, DoorSensor)
    requires after.record == a.record && after.gates.recheckDone == a.gates.recheckDone
    requires Present(after.data.sensor) == Present(a.data.sensor)
    requires Present(a.data.sensor) ==> after.data.sensor.value.lastFetched == a.data.sensor.value.lastFetched
    ensures SensorSpaced(after, start, length)
  {
  }

  lemma VerifyKeepsSensor(cfg: Config, a: Attempt, now: Time, confirmed: bool, local: Option<LocalStatus>,
                          reply: Reply<StateReply>)
    ensures var after := VerifyState(cfg, a, now, confirmed, local, reply);
            && Present(after.data.sensor) == Present(a.data.sensor)
            && (Present(a.data.sensor) ==> after.data.sensor.value.lastFetched == a.data.sensor.value.lastFetched)
  {
  }

  lemma DetailedSensorSpaced(cfg: Config, a: Attempt, e: Event, start: Time, length: Time)
    requires SensorSpaced(a, start, length) && e.Poll? && KeepsSensor(e)
    ensures SensorSpaced(FetchDetails(cfg, a, e.now, e.answers.details), start, length)
  {
    DetailsKeep(cfg, a, e.now, e.answers.details);
    AskedByDetails(cfg, a, e.now, e.answers.details, DoorSensor);
    SameSensorSpaced(a, FetchDetails(cfg, a, e.now, e.answers.details), start, length);
  }

  lemma VerifiedSensorSpaced(cfg: Config, a: Attempt, e: Event, start: Time, length: Time)
    requires SensorSpaced(a, start, length) && e.Poll? && KeepsSensor(e) && start <= e.now <= start + length
    requires !Verified(cfg, a, e.now, e.webhookConfirmed, e.answers).failed
    ensures SensorSpaced(Verified(cfg, a, e.now, e.webhookConfirmed, e.answers), start, length)
  {
    var detailed := FetchDetails(cfg, a, e.now, e.answers.details);
    var sensed := RefreshSensor(detailed, e.now, e.answers.sensor);
    StateKnown(cfg, sensed, e.now, e.webhookConfirmed, e.answers.local, e.answers.state);
    DetailedSensorSpaced(cfg, a, e, start, length);
    if Present(detailed.data.sensor) {
      PresentSensorSpaced(detailed, e.now, e.answers.sensor, start, length);
    } else {
      ProbedSensorSpaced(detailed, e.now, e.answers.sensor, start, length);
    }
    VerifyKeepsSensor(cfg, sensed, e.now, e.webhookConfirmed, e.answers.local, e.answers.state);
    AskedByVerify(cfg, sensed, e.now, e.webhookConfirmed, e.answers.local, e.answers.state, DoorSensor);
    SameSensorSpaced(
      sensed, VerifyState(cfg, sensed, e.now, e.webhookConfirmed, e.answers.local, e.answers.state), start, length);
  }

  lemma PollSensorSpaced(cfg: Config, l: Lock, e: Event, start: Time, length: Time)
    requires SensorSpaced(Start(l), start, length) && e.Poll? && KeepsSensor(e) && start <= e.now <= start + length
    requires PollSucceeds(cfg, l, e.now, e.webhookConfirmed, e.answers)
    ensures SensorSpaced(Attempted(cfg, Start(l), e.now, e.webhookConfirmed, e.answers), start, length)
  {
    var verified := Verified(cfg, Start(l), e.now, e.webhookConfirmed, e.answers);
    ExtendedKeeps(cfg, verified, e.now, e.answers);
    VerifiedSensorSpaced(cfg, Start(l), e, start, length);
    AskedByExtended(cfg, verified, e.now, e.answers, DoorSensor);
    SameSensorSpaced(verified, Extended(cfg, verified, e.now, e.answers), start, length);
  }

  /** A poll that succeeds ends as its attempt did. */
  lemma PollEnds(cfg: Config, l: Lock, now: Time, confirmed: bool, answers: Answers, start: Time, length: Time)
    requires PollSucceeds(cfg, l, now, confirmed, answers)
    requires SensorSpaced(Attempted(cfg, Start(l), now, confirmed, answers), start, length)
    ensures SensorSpaced(Start(PollStep(cfg, l, now, confirmed, answers)), start, length)
  {
    var a := Attempted(cfg, Start(l), now, confirmed, answers);
    SameSensorSpaced(a, Start(PollStep(cfg, l, now, confirmed, answers)), start, length);
  }

  lemma {:induction false} SensorQueriesSpaced(cfg: Config, l: Lock, es: seq<Event>, interval: Time, start: Time,
                                              length: Time)
    requires l.calls == [] && l.data.doorSensor && Scheduled(cfg, l, es, interval, start, length)
    requires forall i :: 0 <= i < |es| ==> KeepsSensor(es[i])
    ensures SensorSpaced(Start(Run(cfg, l, es)), start, length)
  {
    if es != [] {
      var rest, e := es[..|es| - 1], es[|es| - 1];
      var before := Run(cfg, l, rest);
      SensorQueriesSpaced(cfg, l, rest, interval, start, length);
      if e.Poll? {
        PollSensorSpaced(cfg, before, e, start, length);
        PollEnds(cfg, before, e.now, e.webhookConfirmed, e.answers, start, length);
      } else {
        QuietStep(cfg, before, e);
        SameSensorSpaced(Start(before), Start(Run(cfg, l, es)), start, length);
      }
    }
  }

  /** A lock with the sensor feature is asked about its sensor at most once, and once more for every whole day of the
      window, whether one is there, is not, or has not been looked for yet. */
  lemma SensorQueryBudget(cfg: Config, l: Lock, es: seq<Event>, interval: Time, start: Time, length: Time)
    requires l.calls == [] && l.data.doorSensor && Scheduled(cfg, l, es, interval, start, length) && length >= 0
    requires forall i :: 0 <= i < |es| ==> KeepsSensor(es[i])
    ensures |Asked(Run(cfg, l, es).calls, DoorSensor)| <= length / DAY + 1
  {
    SensorQueriesSpaced(cfg, l, es, interval, start, length);
    var after := Start(Run(cfg, l, es));
    SpacedCount(Asked(after.calls, DoorSensor), SensorGate(after), DAY, start, length);
  }

  // ---------------------------------------------------------------- all calls

  /** Every call is of one of the seven kinds. */
  lemma {:induction false} CallsByKind(calls: seq<ApiCall>)
    ensures |calls| == |Asked(calls, LockDetail)| + |Asked(calls, DoorSensor)| + |Asked(calls, OpenState)|
                     + |Asked(calls, PassageMode)| + |Asked(calls, LockGateways)|
                     + |Asked(calls, Passcodes)| + |Asked(calls, Ekeys)|
  {
    if calls != [] {
      CallsByKind(calls[..|calls| - 1]);
    }
  }

  /** A lock that has no door sensor is never asked about one. */
  lemma {:induction false} NoSensorNoQueries(cfg: Config, l: Lock, es: seq<Event>, interval: Time, start: Time,
          length: Time)
    requires l.calls == [] && !l.data.doorSensor && Scheduled(cfg, l, es, interval, start, length)
    requires forall i :: 0 <= i < |es| && es[i].Poll? && es[i].answers.details.Answer? ==>
               !es[i].answers.details.value.doorSensor
    ensures Asked(Run(cfg, l, es).calls, DoorSensor) == [] && !Run(cfg, l, es).data.doorSensor
  {
    if es != [] {
      var rest, e := es[..|es| - 1], es[|es| - 1];
      NoSensorNoQueries(cfg, l, rest, interval, start, length);
      if e.Poll? {
        NoSensorPoll(cfg, Run(cfg, l, rest), e);
      } else {
        QuietStep(cfg, Run(cfg, l, rest), e);
      }
    }
  }

  lemma NoSensorPoll(cfg: Config, l: Lock, e: Event)
    requires e.Poll? && !l.data.doorSensor && (e.answers.details.Answer? ==> !e.answers.details.value.doorSensor)
    ensures Asked(Step(cfg, l, e).calls, DoorSensor) == Asked(l.calls, DoorSensor) && !Step(cfg, l, e).data.doorSensor
  {
    var detailed := FetchDetails(cfg, Start(l), e.now, e.answers.details);
    var sensed := RefreshSensor(detailed, e.now, e.answers.sensor);
    var verified := VerifyState(cfg, sensed, e.now, e.webhookConfirmed, e.answers.local, e.answers.state);
    AskedByDetails(cfg, Start(l), e.now, e.answers.details, DoorSensor);
    AskedByVerify(cfg, sensed, e.now, e.webhookConfirmed, e.answers.local, e.answers.state, DoorSensor);
    AskedByExtended(cfg, verified, e.now, e.answers, DoorSensor);
    StateKnown(cfg, sensed, e.now, e.webhookConfirmed, e.answers.local, e.answers.state);
    ExtendedKeeps(cfg, verified, e.now, e.answers);
  }
}
