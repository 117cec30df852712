/** Everything that happens to a lock's coordinator over time: polls, pushes, auto-locks, commands, restarts. */
module CoordinatorRuns {
  import opened Bytes
  import opened LockStore
  import opened LockCoordinator

  datatype Event =
    | Poll(now: Time, webhookConfirmed: bool, answers: Answers)
    | Pushed(push: Push, now: Time)
    | AutoLocked(task: nat, now: Time)
    | LockCommand(accepted: bool)
    | UnlockCommand(accepted: bool)
    | SetAutoLock(on: bool, accepted: bool)
    | RefreshCodes(now: Time, passcodes: Reply<seq<nat>>, ekeys: Reply<seq<nat>>)
    | UpdateState                       // the service forgets the state and then polls
    | Restart(seed: LockState)          // a new coordinator, started from the lock list

  /** What the lock list says of a lock: nothing about its state, its sensor or its credentials. */
  predicate IsSeed(data: LockState) {
    data.locked.None? && data.sensor.None? && data.passcodes.None? && data.ekeys.None?
  }

  const NO_GATES := Gates(None, None, None, None, false)

  function RefreshCodesStep(l: Lock, now: Time, passcodes: Reply<seq<nat>>, ekeys: Reply<seq<nat>>): Lock {
    match passcodes
    case Failure => l.(calls := l.calls + [ApiCall(Passcodes, now)])
    case Answer(ps) =>
      var asked := l.(calls := l.calls + [ApiCall(Passcodes, now)] + [ApiCall(Ekeys, now)]);
      match ekeys
      case Failure => asked
      case Answer(es) =>
        asked.(data := l.data.(passcodes := Some(ps), ekeys := Some(es)), gates := l.gates.(codes := Some(now)))
  }

  function Step(cfg: Config, l: Lock, e: Event): Lock {
    match e
    case Poll(now, confirmed, answers) => PollStep(cfg, l, now, confirmed, answers)
    case Pushed(push, now) => PushStep(l, push, now)
    case AutoLocked(task, now) =>
      if task < |l.autoLocks| && l.autoLocks[task] <= now then
        l.(data := l.data.(locked := Some(true), lastReason := Some(AutoLock)),
           autoLocks := l.autoLocks[..task] + l.autoLocks[task + 1..])
      else l
    case LockCommand(accepted) => if accepted then l.(data := l.data.(locked := Some(true))) else l
    case UnlockCommand(accepted) => if accepted then l.(data := l.data.(locked := Some(false))) else l
    case SetAutoLock(on, accepted) =>
      if accepted then l.(data := l.data.(autoLockSeconds := Some(if on then 10 else 0))) else l
    case RefreshCodes(now, ps, es) => RefreshCodesStep(l, now, ps, es)
    case UpdateState => l.(data := l.data.(locked := None))
    case Restart(seed) => if IsSeed(seed) then Lock(seed, NO_GATES, l.record, [], l.calls) else l
  }

  function Run(cfg: Config, l: Lock, es: seq<Event>): Lock {
    if es == [] then l else Step(cfg, Run(cfg, l, es[..|es| - 1]), es[|es| - 1])
  }

  // ---------------------------------------------------------------- what is known stays known

  predicate Forgets(e: Event) {
    e.UpdateState? || e.Restart?
  }

  /** What the fetches after the lock's state leave alone. */
  lemma ExtendedKeeps(cfg: Config, a: Attempt, now: Time, answers: Answers)
    ensures StateKept(a, Extended(cfg, a, now, answers))
  {
    var passage := FetchPassageMode(cfg, a, now, answers.passage);
    PassageKeeps(cfg, a, now, answers.passage);
    GatewaysKeep(cfg, passage, now, answers.gateways);
    CodesKeep(cfg, FetchGateways(cfg, passage, now, answers.gateways), now, answers.passcodes, answers.ekeys);
  }

  predicate StateKept(a: Attempt, after: Attempt) {
    && after.data.locked == a.data.locked && after.data.sensor == a.data.sensor
    && after.data.doorSensor == a.data.doorSensor
    && after.gates.details == a.gates.details && after.gates.recheckDone == a.gates.recheckDone
    && after.record == a.record && (a.failed ==> after == a)
  }

  lemma PassageKeeps(cfg: Config, a: Attempt, now: Time, reply: Reply<nat>)
    ensures StateKept(a, FetchPassageMode(cfg, a, now, reply))
  {
  }

  lemma GatewaysKeep(cfg: Config, a: Attempt, now: Time, reply: Reply<seq<nat>>)
    ensures StateKept(a, FetchGateways(cfg, a, now, reply))
  {
  }

  lemma CodesKeep(cfg: Config, a: Attempt, now: Time, ps: Reply<seq<nat>>, es: Reply<seq<nat>>)
    ensures StateKept(a, FetchCodes(cfg, a, now, ps, es))
  {
  }

  lemma SensorKeeps(a: Attempt, now: Time, reply: Reply<Option<SensorReply>>)
    ensures var after := RefreshSensor(a, now, reply);
            && after.data.locked == a.data.locked && after.data.doorSensor == a.data.doorSensor
            && after.gates == a.gates.(recheckDone := after.gates.recheckDone) && (a.failed ==> after == a)
  {
  }

  lemma DetailsKeep(cfg: Config, a: Attempt, now: Time, reply: Reply<Details>)
    ensures var after := FetchDetails(cfg, a, now, reply);
            && after.data.locked == a.data.locked && after.data.sensor == a.data.sensor
            && after.gates == a.gates.(details := after.gates.details) && after.record == a.record
            && (a.failed ==> after == a)
  {
  }

  /** Whether the lock's state is known after it was looked for. */
  lemma VerifiedKnows(cfg: Config, a: Attempt, now: Time, confirmed: bool, answers: Answers)
    ensures var after := Verified(cfg, a, now, confirmed, answers);
            && (a.data.locked.Some? ==> after.data.locked.Some?)
            && (!after.failed ==>
                (after.data.locked.None? <==>
                 a.data.locked.None? && !(answers.local.Some? && answers.local.value.locked.Some?)
                       && answers.state.Failure?))
  {
    var detailed := FetchDetails(cfg, a, now, answers.details);
    DetailsKeep(cfg, a, now, answers.details);
    SensorKeeps(detailed, now, answers.sensor);
    StateKnown(cfg, RefreshSensor(detailed, now, answers.sensor), now, confirmed, answers.local, answers.state);
  }

  lemma StateKnown(cfg: Config, a: Attempt, now: Time, confirmed: bool, local: Option<LocalStatus>,
          reply: Reply<StateReply>)
    ensures var after := VerifyState(cfg, a, now, confirmed, local, reply);
            && (a.data.locked.Some? ==> after.data.locked.Some?)
            && (!after.failed ==>
                (after.data.locked.None? <==>
                 a.data.locked.None? && !(local.Some? && local.value.locked.Some?) && reply.Failure?))
            && after.gates == a.gates && after.record == a.record && (a.failed ==> after == a)
            && after.data.doorSensor == a.data.doorSensor
  {
  }

  /** The lock's state, once known, becomes unknown again only through the update service or a restart: never by
      a poll, whatever fails in it, a push, an auto-lock or a command. */
  lemma {:induction false} KnownStaysKnown(cfg: Config, l: Lock, es: seq<Event>)
    requires l.data.locked.Some? && forall i :: 0 <= i < |es| ==> !Forgets(es[i])
    ensures Run(cfg, l, es).data.locked.Some?
  {
    if es != [] {
      var before, e := Run(cfg, l, es[..|es| - 1]), es[|es| - 1];
      KnownStaysKnown(cfg, l, es[..|es| - 1]);
      if e.Poll? {
        PollPublishesIff(cfg, before, e.now, e.webhookConfirmed, e.answers);
      }
    }
  }

  /** A failed poll publishes nothing; a poll that succeeds leaves the state known unless it was unknown and the
      cloud could not say. */
  lemma PollPublishesIff(cfg: Config, l: Lock, now: Time, confirmed: bool, answers: Answers)
    ensures !PollSucceeds(cfg, l, now, confirmed, answers) ==> PollStep(cfg, l, now, confirmed, answers).data == l.data
    ensures PollSucceeds(cfg, l, now, confirmed, answers) ==>
              (PollStep(cfg, l, now, confirmed, answers).data.locked.None? <==>
               l.data.locked.None? && !(answers.local.Some? && answers.local.value.locked.Some?)
                     && answers.state.Failure?)
  {
    VerifiedKnows(cfg, Start(l), now, confirmed, answers);
    ExtendedKeeps(cfg, Verified(cfg, Start(l), now, confirmed, answers), now, answers);
  }

  // ---------------------------------------------------------------- what is not asked of the cloud

  function Asked(calls: seq<ApiCall>, endpoint: Endpoint): seq<Time> {
    if calls == [] then []
    else
      var last := calls[|calls| - 1];
      Asked(calls[..|calls| - 1], endpoint) + if last.endpoint == endpoint then [last.at] else []
  }

  lemma AskedOneMore(calls: seq<ApiCall>, call: ApiCall, endpoint: Endpoint)
    ensures Asked(calls + [call], endpoint)
         == Asked(calls, endpoint) + if call.endpoint == endpoint then [call.at] else []
  {
    assert (calls + [call])[..|calls|] == calls;
  }

  /** What each fetch of a poll asks. */
  lemma AskedByDetails(cfg: Config, a: Attempt, now: Time, reply: Reply<Details>, endpoint: Endpoint)
    ensures Asked(FetchDetails(cfg, a, now, reply).calls, endpoint) == Asked(a.calls, endpoint)
         + if endpoint == LockDetail && !a.failed && Due(a.gates.details, now, cfg.slowInterval) then [now] else []
  {
    AskedOneMore(a.calls, ApiCall(LockDetail, now), endpoint);
  }

  lemma AskedBySensor(a: Attempt, now: Time, reply: Reply<Option<SensorReply>>, endpoint: Endpoint)
    requires endpoint != DoorSensor
    ensures Asked(RefreshSensor(a, now, reply).calls, endpoint) == Asked(a.calls, endpoint)
  {
    AskedOneMore(a.calls, ApiCall(DoorSensor, now), endpoint);
  }

  predicate AsksState(cfg: Config, a: Attempt, confirmed: bool, local: Option<LocalStatus>) {
    && !a.failed
    && !(local.Some? && local.value.locked.Some?)
    && !(cfg.webhookOnly && confirmed && a.data.locked.Some?)
  }

  lemma AskedByVerify(cfg: Config, a: Attempt, now: Time, confirmed: bool, local: Option<LocalStatus>,
          reply: Reply<StateReply>, endpoint: Endpoint)
    ensures Asked(VerifyState(cfg, a, now, confirmed, local, reply).calls, endpoint) == Asked(a.calls, endpoint)
         + if endpoint == OpenState && AsksState(cfg, a, confirmed, local) then [now] else []
  {
    AskedOneMore(a.calls, ApiCall(OpenState, now), endpoint);
  }

  lemma AskedByPassage(cfg: Config, a: Attempt, now: Time, reply: Reply<nat>, endpoint: Endpoint)
    ensures Asked(FetchPassageMode(cfg, a, now, reply).calls, endpoint) == Asked(a.calls, endpoint)
         + if endpoint == PassageMode && !a.failed && Due(a.gates.passage, now, cfg.slowInterval) then [now] else []
  {
    AskedOneMore(a.calls, ApiCall(PassageMode, now), endpoint);
  }

  lemma AskedByGateways(cfg: Config, a: Attempt, now: Time, reply: Reply<seq<nat>>, endpoint: Endpoint)
    ensures Asked(FetchGateways(cfg, a, now, reply).calls, endpoint) == Asked(a.calls, endpoint)
         + if endpoint == LockGateways && !a.failed && cfg.hasGateway && Due(a.gates.gateways, now, cfg.slowInterval)
           then [now] else []
  {
    AskedOneMore(a.calls, ApiCall(LockGateways, now), endpoint);
  }

  lemma AskedByCodes(cfg: Config, a: Attempt, now: Time, ps: Reply<seq<nat>>, es: Reply<seq<nat>>, endpoint: Endpoint)
    ensures Asked(FetchCodes(cfg, a, now, ps, es).calls, endpoint) == Asked(a.calls, endpoint)
         + if !a.failed && Due(a.gates.codes, now, cfg.slowInterval)
               && (endpoint == Passcodes || (endpoint == Ekeys && ps.Answer?))
           then [now] else []
  {
    AskedOneMore(a.calls, ApiCall(Passcodes, now), endpoint);
    AskedOneMore(a.calls + [ApiCall(Passcodes, now)], ApiCall(Ekeys, now), endpoint);
  }

  lemma AskedByExtended(cfg: Config, a: Attempt, now: Time, answers: Answers, endpoint: Endpoint)
    requires endpoint in {LockDetail, DoorSensor, OpenState}
    ensures Asked(Extended(cfg, a, now, answers).calls, endpoint) == Asked(a.calls, endpoint)
  {
    var passage := FetchPassageMode(cfg, a, now, answers.passage);
    AskedByPassage(cfg, a, now, answers.passage, endpoint);
    AskedByGateways(cfg, passage, now, answers.gateways, endpoint);
    var linked := FetchGateways(cfg, passage, now, answers.gateways);
    AskedByCodes(cfg, linked, now, answers.passcodes, answers.ekeys, endpoint);
  }

  /** A poll asks for the state once at most, and only when nothing nearer tells it. */
  lemma StateAskedByPoll(cfg: Config, l: Lock, now: Time, confirmed: bool, answers: Answers)
    ensures var asked := Asked(PollStep(cfg, l, now, confirmed, answers).calls, OpenState);
            || asked == Asked(l.calls, OpenState)
            || (&& asked == Asked(l.calls, OpenState) + [now]
                && !(answers.local.Some? && answers.local.value.locked.Some?)
                && !(cfg.webhookOnly && confirmed && l.data.locked.Some?))
  {
    var detailed := FetchDetails(cfg, Start(l), now, answers.details);
    var sensed := RefreshSensor(detailed, now, answers.sensor);
    AskedByDetails(cfg, Start(l), now, answers.details, OpenState);
    AskedBySensor(detailed, now, answers.sensor, OpenState);
    AskedByVerify(cfg, sensed, now, confirmed, answers.local, answers.state, OpenState);
    AskedByExtended(cfg, Verified(cfg, Start(l), now, confirmed, answers), now, answers, OpenState);
    DetailsKeep(cfg, Start(l), now, answers.details);
    SensorKeeps(detailed, now, answers.sensor);
  }

  /** The cloud is spared a poll's state query. */
  predicate Spared(cfg: Config, e: Event) {
    e.Poll? ==> (cfg.webhookOnly && e.webhookConfirmed) || (e.answers.local.Some? && e.answers.local.value.locked.Some?)
  }

  lemma CodesAskNoState(l: Lock, now: Time, passcodes: Reply<seq<nat>>, ekeys: Reply<seq<nat>>)
    ensures Asked(RefreshCodesStep(l, now, passcodes, ekeys).calls, OpenState) == Asked(l.calls, OpenState)
  {
    AskedOneMore(l.calls, ApiCall(Passcodes, now), OpenState);
    AskedOneMore(l.calls + [ApiCall(Passcodes, now)], ApiCall(Ekeys, now), OpenState);
  }

  lemma OtherStepsAskNoState(cfg: Config, l: Lock, e: Event)
    requires !e.Poll?
    ensures Asked(Step(cfg, l, e).calls, OpenState) == Asked(l.calls, OpenState)
  {
    if e.RefreshCodes? {
      CodesAskNoState(l, e.now, e.passcodes, e.ekeys);
    }
  }

  /** In webhook-only mode with a confirmed webhook, or with the lock answering over Bluetooth, a run from a known
      state never asks the cloud for it. */
  lemma {:induction false} NoStateQueries(cfg: Config, l: Lock, es: seq<Event>)
    requires l.data.locked.Some? && forall i :: 0 <= i < |es| ==> !Forgets(es[i]) && Spared(cfg, es[i])
    ensures Asked(Run(cfg, l, es).calls, OpenState) == Asked(l.calls, OpenState)
  {
    if es != [] {
      var rest, e := es[..|es| - 1], es[|es| - 1];
      NoStateQueries(cfg, l, rest);
      KnownStaysKnown(cfg, l, rest);
      if e.Poll? {
        StateAskedByPoll(cfg, Run(cfg, l, rest), e.now, e.webhookConfirmed, e.answers);
      } else {
        OtherStepsAskNoState(cfg, Run(cfg, l, rest), e);
      }
    }
  }

  // ---------------------------------------------------------------- auto-lock

  /** The due time a step queues, and the one of the task it fires. */
  function QueuedBy(l: Lock, e: Event): seq<Time> {
    if e.Pushed? && e.push.ours && e.push.success && e.push.action.UnlockAction?
       && AutoLockDelay(l.data, e.push.passage).Some?
    then [e.now + AutoLockWait(AutoLockDelay(l.data, e.push.passage).value, e.push)]
    else []
  }

  function FiredBy(l: Lock, e: Event): seq<Time> {
    if e.AutoLocked? && e.task < |l.autoLocks| && l.autoLocks[e.task] <= e.now then [l.autoLocks[e.task]] else []
  }

  function Queued(cfg: Config, l: Lock, es: seq<Event>): seq<Time> {
    if es == [] then []
    else
      var rest := es[..|es| - 1];
      Queued(cfg, l, rest) + QueuedBy(Run(cfg, l, rest), es[|es| - 1])
  }

  function Fired(cfg: Config, l: Lock, es: seq<Event>): seq<Time> {
    if es == [] then []
    else
      var rest := es[..|es| - 1];
      Fired(cfg, l, rest) + FiredBy(Run(cfg, l, rest), es[|es| - 1])
  }

  lemma TaskFires(tasks: seq<Time>, i: nat)
    requires i < |tasks|
    ensures multiset(tasks[..i] + tasks[i + 1..]) + multiset([tasks[i]]) == multiset(tasks)
  {
    assert tasks == tasks[..i] + [tasks[i]] + tasks[i + 1..];
  }

  lemma OthersKeepTasks(cfg: Config, l: Lock, e: Event)
    requires !e.Restart? && !e.AutoLocked? && !e.Pushed?
    ensures Step(cfg, l, e).autoLocks == l.autoLocks && FiredBy(l, e) == [] && QueuedBy(l, e) == []
  {
  }

  lemma PushConserves(cfg: Config, l: Lock, push: Push, now: Time)
    ensures multiset(Step(cfg, l, Pushed(push, now)).autoLocks) + multiset(FiredBy(l, Pushed(push, now)))
         == multiset(l.autoLocks) + multiset(QueuedBy(l, Pushed(push, now)))
  {
    MultisetOfSum(l.autoLocks, QueuedBy(l, Pushed(push, now)));
  }

  lemma FiringConserves(cfg: Config, l: Lock, task: nat, now: Time)
    ensures multiset(Step(cfg, l, AutoLocked(task, now)).autoLocks) + multiset(FiredBy(l, AutoLocked(task, now)))
         == multiset(l.autoLocks) + multiset(QueuedBy(l, AutoLocked(task, now)))
  {
    if task < |l.autoLocks| {
      TaskFires(l.autoLocks, task);
    }
  }

  lemma StepConservesTasks(cfg: Config, l: Lock, e: Event)
    requires !e.Restart?
    ensures multiset(Step(cfg, l, e).autoLocks) + multiset(FiredBy(l, e))
         == multiset(l.autoLocks) + multiset(QueuedBy(l, e))
  {
    if e.AutoLocked? {
      FiringConserves(cfg, l, e.task, e.now);
    } else if e.Pushed? {
      PushConserves(cfg, l, e.push, e.now);
    } else {
      OthersKeepTasks(cfg, l, e);
    }
  }

  /** Auto-lock tasks are conserved: through any run without a restart, every task under way or queued is still under
      way with its due time or has fired, once, and there are no others. */
  lemma {:induction false} TasksAreConserved(cfg: Config, l: Lock, es: seq<Event>)
    requires forall i :: 0 <= i < |es| ==> !es[i].Restart?
    ensures multiset(Run(cfg, l, es).autoLocks) + multiset(Fired(cfg, l, es))
         == multiset(l.autoLocks) + multiset(Queued(cfg, l, es))
  {
    if es != [] {
      var rest, e := es[..|es| - 1], es[|es| - 1];
      var before := Run(cfg, l, rest);
      assert forall i :: 0 <= i < |rest| ==> rest[i] == es[i];
      TasksAreConserved(cfg, l, rest);
      StepConservesTasks(cfg, before, e);
      Balance(
        multiset(before.autoLocks), multiset(Fired(cfg, l, rest)),
        multiset(l.autoLocks), multiset(Queued(cfg, l, rest)),
        multiset(Step(cfg, before, e).autoLocks), multiset(FiredBy(before, e)), multiset(QueuedBy(before, e)));
      MultisetOfSum(Fired(cfg, l, rest), FiredBy(before, e));
      MultisetOfSum(Queued(cfg, l, rest), QueuedBy(before, e));
    }
  }

  lemma Balance(a: multiset<Time>, b: multiset<Time>, c: multiset<Time>, d: multiset<Time>, a': multiset<Time>,
                fired: multiset<Time>, queued: multiset<Time>)
    requires a + b == c + d && a' + fired == a + queued
    ensures a' + (b + fired) == c + (d + queued)
  {
    forall t
      ensures (a' + (b + fired))[t] == (c + (d + queued))[t]
    {
      assert (a + b)[t] == (c + d)[t] && (a' + fired)[t] == (a + queued)[t];
    }
  }

  lemma MultisetOfSum(a: seq<Time>, b: seq<Time>)
    ensures multiset(a + b) == multiset(a) + multiset(b)
  {
  }

  /** The event numbered `i` of the run fires a task due at `due`, no earlier than that, and leaves the lock locked. */
  ghost predicate FiresAt(cfg: Config, l: Lock, es: seq<Event>, i: nat, due: Time) {
    && i < |es| && es[i].AutoLocked? && due <= es[i].now
    && Run(cfg, l, es[..i + 1]).data.locked == Some(true)
  }

  /** Whatever task fired in a run did so when it was due or later, and locked the lock. */
  lemma {:induction false} FiringLocks(cfg: Config, l: Lock, es: seq<Event>, due: Time) returns (i: nat)
    requires due in Fired(cfg, l, es)
    ensures FiresAt(cfg, l, es, i, due)
  {
    var rest := es[..|es| - 1];
    if due in FiredBy(Run(cfg, l, rest), es[|es| - 1]) {
      i := |rest|;
      assert es[..i + 1] == es;
    } else {
      i := FiringLocks(cfg, l, rest, due);
      assert rest[..i + 1] == es[..i + 1];
    }
  }

  /** How long a push of the lock's record was under way, as far as the two clocks tell. */
  function Transit(push: Push): (d: Time)
    ensures d >= 0
  {
    if push.serverTime > push.lockTime then push.serverTime - push.lockTime else 0
  }

  /** When the task queued by a push handled at `now` is due: no earlier than that. */
  function RelockTime(push: Push, seconds: int, now: Time): (due: Time)
    ensures due >= now
  {
    if Transit(push) <= seconds then now + seconds - Transit(push) else now
  }

  /** When a push of an unlock is handled, whenever that is, a task is due the delay after the unlock and the handling's
      lag behind the server's time; at once if the delay was over before; a lock clock that is ahead counts as none.
      After any events without a restart that task is still under way with its due time, or it has fired. */
  lemma AutoLockIsOnTime(cfg: Config, l: Lock, push: Push, now: Time, seconds: int, es: seq<Event>)
    requires push.ours && push.success && push.action.UnlockAction? && !push.passage
    requires l.data.autoLockSeconds == Some(seconds) && seconds > 0
    requires forall i :: 0 <= i < |es| ==> !es[i].Restart?
    ensures var open := Step(cfg, l, Pushed(push, now));
            var due := RelockTime(push, seconds, now);
            && open.data.locked == Some(false) && open.autoLocks == l.autoLocks + [due]
            && (push.lockTime <= push.serverTime && Transit(push) <= seconds ==>
                  due == push.lockTime + seconds + (now - push.serverTime))
            && (Transit(push) > seconds ==> due == now)
            && (push.lockTime > push.serverTime ==> due == now + seconds)
            && multiset(Run(cfg, open, es).autoLocks)[due] + multiset(Fired(cfg, open, es))[due]
            >= multiset(l.autoLocks)[due] + 1
  {
    PushQueues(cfg, l, push, now, seconds);
    TaskIsKept(cfg, Step(cfg, l, Pushed(push, now)), l.autoLocks, RelockTime(push, seconds, now), es);
  }

  lemma PushQueues(cfg: Config, l: Lock, push: Push, now: Time, seconds: int)
    requires push.ours && push.success && push.action.UnlockAction?
    requires AutoLockDelay(l.data, push.passage) == Some(seconds)
    ensures var open := Step(cfg, l, Pushed(push, now));
            open.data.locked == Some(false) && open.autoLocks == l.autoLocks + [RelockTime(push, seconds, now)]
  {
  }

  lemma TaskIsKept(cfg: Config, l: Lock, tasks: seq<Time>, due: Time, es: seq<Event>)
    requires l.autoLocks == tasks + [due] && forall i :: 0 <= i < |es| ==> !es[i].Restart?
    ensures multiset(Run(cfg, l, es).autoLocks)[due] + multiset(Fired(cfg, l, es))[due] >= multiset(tasks)[due] + 1
  {
    TasksAreConserved(cfg, l, es);
    MultisetOfSum(tasks, [due]);
    var after, fired := multiset(Run(cfg, l, es).autoLocks), multiset(Fired(cfg, l, es));
    assert (after + fired)[due] >= multiset(l.autoLocks)[due];
  }
}
