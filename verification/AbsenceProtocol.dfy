/** The door sensor's absence protocol over whole runs, restarts included. */
module AbsenceProtocol {
  import opened Bytes
  import opened LockStore
  import opened LockCoordinator
  import opened CoordinatorRuns

  /** The persisted count is between 0 and 3, and the verdict is in exactly when it is 3. */
  predicate Coherent(record: SensorRecord) {
    && Failures(record) <= 3
    && (ConfirmedAbsent(record) <==> Failures(record) == 3)
  }

  // ---------------------------------------------------------------- one poll

  /** All of a poll that touches the protocol is its look at the sensor. */
  function Sensed(cfg: Config, l: Lock, now: Time, answers: Answers): Attempt {
    RefreshSensor(FetchDetails(cfg, Start(l), now, answers.details), now, answers.sensor)
  }

  lemma PollSenses(cfg: Config, l: Lock, now: Time, confirmed: bool, answers: Answers)
    requires cfg.connectable
    ensures var sensed, after := Sensed(cfg, l, now, answers), PollStep(cfg, l, now, confirmed, answers);
            && after.record == sensed.record && after.gates.recheckDone == sensed.gates.recheckDone
            && Asked(after.calls, DoorSensor) == Asked(sensed.calls, DoorSensor)
  {
    var sensed := Sensed(cfg, l, now, answers);
    var verified := Verified(cfg, Start(l), now, confirmed, answers);
    StateKnown(cfg, sensed, now, confirmed, answers.local, answers.state);
    ExtendedKeeps(cfg, verified, now, answers);
    AskedByVerify(cfg, sensed, now, confirmed, answers.local, answers.state, DoorSensor);
    AskedByExtended(cfg, verified, now, answers, DoorSensor);
  }

  /** What a look at the sensor does to the record: nothing, a sensor found, or a failure counted more than a day
      after the one before. */
  lemma RecordAfterLook(a: Attempt, now: Time, reply: Reply<Option<SensorReply>>)
    requires Coherent(a.record)
    ensures var record := RefreshSensor(a, now, reply).record;
            || record == a.record
            || (reply.Answer? && reply.value.Some? && Failures(record) == 0 && !ConfirmedAbsent(record)
                && record.lastFailed == a.record.lastFailed)
            || (reply == Answer(None) && Failures(record) == Failures(a.record) + 1 && Coherent(record)
                && !ConfirmedAbsent(a.record) && record.lastFailed == Some(now)
                && (a.record.lastFailed.Some? ==> a.record.lastFailed.value + DAY < now))
  {
  }

  lemma RecordAfterStep(cfg: Config, l: Lock, e: Event)
    requires Coherent(l.record)
    ensures Coherent(Step(cfg, l, e).record)
    ensures !e.Poll? ==> Step(cfg, l, e).record == l.record
    ensures Step(cfg, l, e).record.lastFailed != l.record.lastFailed ==>
              && e.Poll? && Step(cfg, l, e).record.lastFailed == Some(e.now)
              && (l.record.lastFailed.Some? ==> l.record.lastFailed.value + DAY < e.now)
    ensures Failures(Step(cfg, l, e).record) > Failures(l.record)
          <==> Step(cfg, l, e).record.lastFailed != l.record.lastFailed
  {
    if e.Poll? && cfg.connectable {
      PollSenses(cfg, l, e.now, e.webhookConfirmed, e.answers);
      var detailed := FetchDetails(cfg, Start(l), e.now, e.answers.details);
      DetailsKeep(cfg, Start(l), e.now, e.answers.details);
      RecordAfterLook(detailed, e.now, e.answers.sensor);
    }
  }

  /** Whether to look for a sensor that is not known: after the verdict once in each restart, before it more than a day
      after the last failure. */
  predicate LookDue(a: Attempt, now: Time) {
    if a.record.confirmedAbsent == Some(true) then !a.gates.recheckDone
    else a.record.lastFailed.None? || now - a.record.lastFailed.value > 86400
  }

  /** What looking for a sensor that is not known writes down: one that is found clears the count; one that is not is
      one more failure, the third of which is the verdict and this restart's recheck as well; after the verdict
      nothing but that the recheck has been. */
  lemma LookRecords(a: Attempt, now: Time, reply: Reply<Option<SensorReply>>)
    requires !a.failed && a.data.doorSensor && !Present(a.data.sensor)
    ensures var after, verdict := RefreshSensor(a, now, reply), a.record.confirmedAbsent == Some(true);
            && after.failed == (LookDue(a, now) && reply.Failure?)
            && (!LookDue(a, now) ==>
                  after.record == a.record && after.gates == a.gates && after.calls == a.calls)
            && (LookDue(a, now) ==> after.calls == a.calls + [ApiCall(DoorSensor, now)])
            && (LookDue(a, now) && (reply.Failure? || (verdict && reply == Answer(None))) ==>
                  after.record == a.record && after.gates.recheckDone == (a.gates.recheckDone || verdict))
            && (LookDue(a, now) && reply.Answer? && reply.value.Some? ==>
                  && after.record == SensorRecord(Some(false), Some(0), a.record.lastFailed)
                  && after.gates.recheckDone == (a.gates.recheckDone || verdict))
            && (LookDue(a, now) && reply == Answer(None) && !verdict ==>
                  && after.record
                     == SensorRecord(Some(Failures(a.record) + 1 >= 3), Some(Failures(a.record) + 1), Some(now))
                  && after.gates.recheckDone == (a.gates.recheckDone || Failures(a.record) + 1 >= 3))
  {
  }

  // ---------------------------------------------------------------- whole runs

  /** The count stays between 0 and 3 and the verdict stays tied to it, whatever happens and however often Home
      Assistant restarts. */
  lemma {:induction false} StaysCoherent(cfg: Config, l: Lock, es: seq<Event>)
    requires Coherent(l.record)
    ensures Coherent(Run(cfg, l, es).record)
  {
    if es != [] {
      StaysCoherent(cfg, l, es[..|es| - 1]);
      RecordAfterStep(cfg, Run(cfg, l, es[..|es| - 1]), es[|es| - 1]);
    }
  }

  /** When failures were counted in a run. */
  function CountedFailures(cfg: Config, l: Lock, es: seq<Event>): seq<Time> {
    if es == [] then []
    else
      var rest, e := es[..|es| - 1], es[|es| - 1];
      var before := Run(cfg, l, rest).record;
      CountedFailures(cfg, l, rest)
        + if e.Poll? && Failures(Run(cfg, l, es).record) > Failures(before) then [e.now] else []
  }

  function LastFailure(cfg: Config, l: Lock, es: seq<Event>): Option<Time> {
    Run(cfg, l, es).record.lastFailed
  }

  lemma LastCounted(cfg: Config, l: Lock, es: seq<Event>)
    requires Coherent(l.record) && es != []
    ensures var rest := es[..|es| - 1];
            var before, after := LastFailure(cfg, l, rest), LastFailure(cfg, l, es);
            && (after != before ==> after.Some? && (before.Some? ==> before.value + DAY < after.value))
            && CountedFailures(cfg, l, es)
               == CountedFailures(cfg, l, rest) + if after != before then [after.value] else []
  {
    StaysCoherent(cfg, l, es[..|es| - 1]);
    RecordAfterStep(cfg, Run(cfg, l, es[..|es| - 1]), es[|es| - 1]);
  }

  predicate MoreThanADayApart(ts: seq<Time>) {
    forall i, j :: 0 <= i < j < |ts| ==> ts[i] + (j - i) * DAY < ts[j]
  }

  /** Counted failures are more than a day apart, across restarts too. */
  lemma {:induction false} FailuresAreDaysApart(cfg: Config, l: Lock, es: seq<Event>)
    requires Coherent(l.record)
    ensures MoreThanADayApart(CountedFailures(cfg, l, es))
    ensures var ts := CountedFailures(cfg, l, es);
            ts != [] ==> LastFailure(cfg, l, es) == Some(ts[|ts| - 1])
  {
    if es != [] {
      var rest := es[..|es| - 1];
      FailuresAreDaysApart(cfg, l, rest);
      LastCounted(cfg, l, es);
      FailuresGrow(CountedFailures(cfg, l, rest), LastFailure(cfg, l, rest), LastFailure(cfg, l, es));
    }
  }

  lemma FailuresGrow(ts: seq<Time>, before: Option<Time>, after: Option<Time>)
    requires MoreThanADayApart(ts) && (ts != [] ==> before == Some(ts[|ts| - 1]))
    requires after != before ==> after.Some? && (before.Some? ==> before.value + DAY < after.value)
    ensures var grown := ts + if after != before then [after.value] else [];
            MoreThanADayApart(grown) && (grown != [] ==> after == Some(grown[|grown| - 1]))
  {
    if after != before {
      OneMoreDay(ts, after.value);
    }
  }

  lemma OneMoreDay(ts: seq<Time>, t: Time)
    requires MoreThanADayApart(ts) && (ts != [] ==> ts[|ts| - 1] + DAY < t)
    ensures MoreThanADayApart(ts + [t])
  {
    forall i, j | 0 <= i < j < |ts| + 1
      ensures (ts + [t])[i] + (j - i) * DAY < (ts + [t])[j]
    {
      if j == |ts| && i < |ts| - 1 {
        assert ts[i] + (|ts| - 1 - i) * DAY < ts[|ts| - 1];
      }
    }
  }

  // ---------------------------------------------------------------- how many probes

  predicate NotFoundOnly(es: seq<Event>) {
    forall i :: 0 <= i < |es| && es[i].Poll? ==> es[i].answers.sensor == Answer(None)
  }

  function Restarts(es: seq<Event>): nat {
    if es == [] then 0 else Restarts(es[..|es| - 1]) + if es[|es| - 1].Restart? then 1 else 0
  }

  /** The probes still to come before the protocol falls silent. */
  function ProbesLeft(record: SensorRecord, recheckDone: bool): int {
    3 - Failures(record) + if ConfirmedAbsent(record) && !recheckDone then 1 else 0
  }

  lemma ProbeUsesOneUp(a: Attempt, now: Time)
    requires Coherent(a.record) && !Present(a.data.sensor)
    ensures var after := RefreshSensor(a, now, Answer(None));
            && !Present(after.data.sensor)
            && |Asked(after.calls, DoorSensor)| + ProbesLeft(after.record, after.gates.recheckDone)
            <= |Asked(a.calls, DoorSensor)| + ProbesLeft(a.record, a.gates.recheckDone)
  {
    AskedOneMore(a.calls, ApiCall(DoorSensor, now), DoorSensor);
  }

  /** The queries made so far and those the protocol may still make. */
  function Spent(l: Lock): int {
    |Asked(l.calls, DoorSensor)| + ProbesLeft(l.record, l.gates.recheckDone)
  }

  /** With replies of "not found" only, a lock without a known sensor is probed three times at most and once more
      after each restart. */
  lemma AtMostThreeProbesAndOnePerRestart(cfg: Config, l: Lock, es: seq<Event>)
    requires Coherent(l.record) && !Present(l.data.sensor) && NotFoundOnly(es)
    ensures |Asked(Run(cfg, l, es).calls, DoorSensor)| <= Spent(l) + Restarts(es)
    ensures Spent(l) <= |Asked(l.calls, DoorSensor)| + 3
  {
    ProbesAccount(cfg, l, es);
    StaysCoherent(cfg, l, es);
  }

  lemma {:induction false} ProbesAccount(cfg: Config, l: Lock, es: seq<Event>)
    requires Coherent(l.record) && !Present(l.data.sensor) && NotFoundOnly(es)
    ensures !Present(Run(cfg, l, es).data.sensor) && Spent(Run(cfg, l, es)) <= Spent(l) + Restarts(es)
  {
    if es != [] {
      var rest, e := es[..|es| - 1], es[|es| - 1];
      ProbesAccount(cfg, l, rest);
      StaysCoherent(cfg, l, rest);
      if e.Poll? {
        PollAccount(cfg, Run(cfg, l, rest), e);
      } else {
        OtherAccount(cfg, Run(cfg, l, rest), e);
      }
    }
  }

  lemma PollAccount(cfg: Config, l: Lock, e: Event)
    requires e.Poll? && e.answers.sensor == Answer(None) && Coherent(l.record) && !Present(l.data.sensor)
    ensures !Present(Step(cfg, l, e).data.sensor) && Spent(Step(cfg, l, e)) <= Spent(l)
  {
    if cfg.connectable {
      var detailed := FetchDetails(cfg, Start(l), e.now, e.answers.details);
      DetailsKeep(cfg, Start(l), e.now, e.answers.details);
      AskedByDetails(cfg, Start(l), e.now, e.answers.details, DoorSensor);
      ProbeUsesOneUp(detailed, e.now);
      PollSenses(cfg, l, e.now, e.webhookConfirmed, e.answers);
      AbsentAfterPoll(cfg, l, e);
    }
  }

  lemma AbsentAfterPoll(cfg: Config, l: Lock, e: Event)
    requires e.Poll? && !Present(l.data.sensor) && !Present(Sensed(cfg, l, e.now, e.answers).data.sensor)
    ensures !Present(PollStep(cfg, l, e.now, e.webhookConfirmed, e.answers).data.sensor)
  {
    var sensed := Sensed(cfg, l, e.now, e.answers);
    AbsentWhenVerified(cfg, sensed, e.now, e.webhookConfirmed, e.answers.local, e.answers.state);
    ExtendedKeeps(cfg, Verified(cfg, Start(l), e.now, e.webhookConfirmed, e.answers), e.now, e.answers);
  }

  lemma AbsentWhenVerified(cfg: Config, a: Attempt, now: Time, confirmed: bool, local: Option<LocalStatus>,
                           reply: Reply<StateReply>)
    requires !Present(a.data.sensor)
    ensures VerifyState(cfg, a, now, confirmed, local, reply).data.sensor == a.data.sensor
  {
  }

  lemma RestartAccount(cfg: Config, l: Lock, seed: LockState)
    requires Coherent(l.record) && !Present(l.data.sensor)
    ensures var after := Step(cfg, l, Restart(seed)); !Present(after.data.sensor) && Spent(after) <= Spent(l) + 1
  {
  }

  lemma RefreshAccount(cfg: Config, l: Lock, e: Event)
    requires e.RefreshCodes? && !Present(l.data.sensor)
    ensures !Present(Step(cfg, l, e).data.sensor) && Spent(Step(cfg, l, e)) == Spent(l)
  {
    AskedOneMore(l.calls, ApiCall(Passcodes, e.now), DoorSensor);
    AskedOneMore(l.calls + [ApiCall(Passcodes, e.now)], ApiCall(Ekeys, e.now), DoorSensor);
  }

  lemma PushAccount(l: Lock, push: Push, now: Time)
    requires !Present(l.data.sensor)
    ensures !Present(PushStep(l, push, now).data.sensor) && Spent(PushStep(l, push, now)) == Spent(l)
  {
  }

  lemma OtherAccount(cfg: Config, l: Lock, e: Event)
    requires !e.Poll? && Coherent(l.record) && !Present(l.data.sensor)
    ensures !Present(Step(cfg, l, e).data.sensor)
    ensures Spent(Step(cfg, l, e)) <= Spent(l) + if e.Restart? then 1 else 0
  {
    match e
    case Pushed(push, now) => PushAccount(l, push, now);
    case RefreshCodes(_, _, _) => RefreshAccount(cfg, l, e);
    case Restart(seed) => RestartAccount(cfg, l, seed);
    case _ =>
  }

  /** A sensor found without a battery level does not settle anything: it is not taken as present, and any later poll
      probes again. */
  lemma BatterylessSensorIsProbedAgain(a: Attempt, now: Time, later: Time)
    requires !a.failed && a.data.doorSensor && !Present(a.data.sensor) && !ConfirmedAbsent(a.record)
    requires ProbeDue(a.record, a.gates.recheckDone, now) && now <= later
    ensures var after := RefreshSensor(a, now, Answer(Some(SensorReply(None))));
            !Present(after.data.sensor) && ProbeDue(after.record, after.gates.recheckDone, later)
  {
  }
}
