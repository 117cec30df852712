/** The coordinator as an object: its fields and the store changed in place, each method proved to be the step of
    the model it implements. */
module LockCoordinatorObject {
  import opened Bytes
  import opened LockStore
  import opened LockCoordinator
  import opened CoordinatorRuns

  class LockUpdateCoordinator {
    const lockId: nat
    const cfg: Config
    const store: LockStateStore

    var data: LockState
    var detailsLastFetched: Option<Time>
    var passageLastFetched: Option<Time>
    var gatewaysLastFetched: Option<Time>
    var codesLastFetched: Option<Time>
    var sensorRecheckDone: bool

    /** When the auto-lock tasks under way are due. */
    var autoLocks: seq<Time>

    /** The queries sent to the cloud. */
    var calls: seq<ApiCall>

    constructor (lockId: nat, cfg: Config, seed: LockState, store: LockStateStore, calls: seq<ApiCall>)
      requires store.Valid() && IsSeed(seed)
      ensures this.lockId == lockId && this.cfg == cfg && this.store == store
      ensures State() == Lock(seed, NO_GATES, RecordOf(store.Contents(), lockId), [], calls)
    {
      this.lockId, this.cfg, this.store, this.data, this.calls := lockId, cfg, store, seed, calls;
      detailsLastFetched, passageLastFetched, gatewaysLastFetched, codesLastFetched := None, None, None, None;
      sensorRecheckDone, autoLocks := false, [];
    }

    ghost function Record(): SensorRecord
      reads this, store, store.disk
    {
      RecordOf(store.Contents(), lockId)
    }

    ghost function GatesNow(): Gates
      reads this
    {
      Gates(detailsLastFetched, passageLastFetched, gatewaysLastFetched, codesLastFetched, sensorRecheckDone)
    }

    ghost function State(): Lock
      reads this, store, store.disk
    {
      Lock(data, GatesNow(), Record(), autoLocks, calls)
    }

    /** A poll under way, with its copy of the data. */
    ghost function Under(copy: LockState, failed: bool): Attempt
      reads this, store, store.disk
    {
      Attempt(copy, GatesNow(), Record(), calls, failed)
    }

    method Query(endpoint: Endpoint, now: Time)
      modifies this`calls
      ensures calls == old(calls) + [ApiCall(endpoint, now)]
    {
      calls := calls + [ApiCall(endpoint, now)];
    }

    predicate SlowTierDue(last: Option<Time>, now: Time) {
      last.None? || last.value <= now - cfg.slowInterval
    }

    method PollDetails(copy: LockState, now: Time, reply: Reply<Details>) returns (result: LockState, ok: bool)
      modifies this`calls, this`detailsLastFetched
      ensures Under(result, !ok) == FetchDetails(cfg, old(Under(copy, false)), now, reply)
    {
      result, ok := copy, true;
      if SlowTierDue(detailsLastFetched, now) {
        Query(LockDetail, now);
        if reply.Failure? {
          return copy, false;
        }
        var d := reply.value;
        result := copy.(about := d.about, doorSensor := d.doorSensor, battery := d.battery,
              autoLockSeconds := d.autoLockSeconds);
        detailsLastFetched := Some(now);
      }
    }

    /** Ask for the sensor and note when; a battery level is taken over. */
    method QuerySensor(sensor: SensorData, now: Time, reply: Reply<Option<SensorReply>>)
      returns (seen: SensorData, ok: bool)
      modifies this`calls
      ensures calls == old(calls) + [ApiCall(DoorSensor, now)] && ok == reply.Answer?
      ensures ok ==> seen == sensor.(
                       lastFetched := Some(now),
                       battery := if reply.value.Some? then reply.value.value.battery else sensor.battery)
    {
      Query(DoorSensor, now);
      seen, ok := sensor, reply.Answer?;
      if ok {
        seen := seen.(lastFetched := Some(now));
        if reply.value.Some? {
          seen := seen.(battery := reply.value.value.battery);
        }
      }
    }

    method PresentSensor(copy: LockState, sensor: SensorData, now: Time, reply: Reply<Option<SensorReply>>)
      returns (result: LockState, ok: bool)
      requires copy.sensor == Some(sensor)
      modifies this`calls
      ensures Under(result, !ok) == UpdatePresentSensor(old(Under(copy, false)), sensor, now, reply)
    {
      result, ok := copy, true;
      if sensor.lastFetched.Some? && sensor.lastFetched.value >= now - DAY {
        return;
      }
      var seen;
      seen, ok := QuerySensor(sensor, now, reply);
      if !ok {
        return;
      }
      result := copy.(sensor := Some(seen));
    }

    /** Whether to probe at all; a verdict that is in allows one recheck after each restart. */
    method BeginProbe(now: Time) returns (stored: SensorRecord, due: bool)
      requires store.Valid()
      modifies this`sensorRecheckDone, store
      ensures store.Valid() && store.Contents() == old(store.Contents()) && stored == Record()
      ensures due == ProbeDue(stored, old(sensorRecheckDone), now)
      ensures sensorRecheckDone == (old(sensorRecheckDone) || (due && ConfirmedAbsent(stored)))
    {
      stored := store.Get(lockId);
      due := true;
      if stored.confirmedAbsent.Some? && stored.confirmedAbsent.value {
        due := !sensorRecheckDone;
        sensorRecheckDone := true;
      } else if stored.lastFailed.Some? && stored.lastFailed.value >= now - DAY {
        due := false;
      }
    }

    /** Write down how a probe went: a sensor found clears the count, a third failure in a row is the verdict. */
    method RecordProbe(stored: SensorRecord, found: bool, now: Time)
      requires store.Valid() && stored == Record()
      modifies this`sensorRecheckDone, store, store.disk
      ensures store.Valid() && Record() == ProbedRecord(stored, found, now)
      ensures sensorRecheckDone ==
                (old(sensorRecheckDone) || (!found && !ConfirmedAbsent(stored) && ConfirmedAbsent(Record())))
      ensures forall other :: other != lockId ==>
                RecordOf(store.Contents(), other) == old(RecordOf(store.Contents(), other))
    {
      if found {
        store.Update(lockId, SensorRecord(Some(false), Some(0), None));
        return;
      }
      if stored.confirmedAbsent.Some? && stored.confirmedAbsent.value {
        return;
      }
      var failures := (if stored.failures.Some? then stored.failures.value else 0) + 1;
      var newlyConfirmed := failures >= ABSENT_AFTER_FAILURES;
      if newlyConfirmed {
        sensorRecheckDone := true;
      }
      store.Update(lockId, SensorRecord(Some(newlyConfirmed), Some(failures), Some(now)));
    }

    method ProbeForSensor(copy: LockState, sensor: SensorData, now: Time, reply: Reply<Option<SensorReply>>)
      returns (result: LockState, ok: bool)
      requires store.Valid() && copy.sensor == Some(sensor)
      modifies this`calls, this`sensorRecheckDone, store, store.disk
      ensures store.Valid() && Under(result, !ok) == CheckForSensor(old(Under(copy, false)), sensor, now, reply)
      ensures forall other :: other != lockId ==>
                RecordOf(store.Contents(), other) == old(RecordOf(store.Contents(), other))
    {
      result, ok := copy, true;
      var stored, due := BeginProbe(now);
      if !due {
        return;
      }
      var seen;
      seen, ok := QuerySensor(sensor, now, reply);
      if !ok {
        return;
      }
      result := copy.(sensor := Some(seen));
      RecordProbe(stored, reply.value.Some?, now);
    }

    method PollSensor(copy: LockState, now: Time, reply: Reply<Option<SensorReply>>)
      returns (result: LockState, ok: bool)
      requires store.Valid()
      modifies this`calls, this`sensorRecheckDone, store, store.disk
      ensures store.Valid() && Under(result, !ok) == RefreshSensor(old(Under(copy, false)), now, reply)
      ensures forall other :: other != lockId ==>
                RecordOf(store.Contents(), other) == old(RecordOf(store.Contents(), other))
    {
      if !copy.doorSensor {
        return copy.(sensor := None), true;
      }
      var sensor := if copy.sensor.Some? then copy.sensor.value else SensorData(None, None, None);
      var placed := copy.(sensor := Some(sensor));
      if sensor.battery.Some? {
        result, ok := PresentSensor(placed, sensor, now, reply);
      } else {
        result, ok := ProbeForSensor(placed, sensor, now, reply);
      }
    }

    method PollState(copy: LockState, now: Time, webhookConfirmed: bool, local: Option<LocalStatus>,
            reply: Reply<StateReply>)
      returns (result: LockState, ok: bool)
      modifies this`calls
      ensures Under(result, !ok) == VerifyState(cfg, old(Under(copy, false)), now, webhookConfirmed, local, reply)
    {
      result, ok := copy, true;
      if local.Some? && local.value.locked.Some? {
        result := result.(locked := local.value.locked);
        if local.value.battery.Some? {
          result := result.(battery := local.value.battery);
        }
        if Present(result.sensor) && local.value.doorOpen.Some? {
          result := result.(sensor := Some(result.sensor.value.(doorOpen := local.value.doorOpen)));
        }
      } else if cfg.webhookOnly && webhookConfirmed && copy.locked.Some? {
      } else {
        Query(OpenState, now);
        if reply.Answer? {
          result := result.(locked := Some(reply.value.position == Locked));
          if Present(result.sensor) {
            result := result.(sensor := Some(result.sensor.value.(doorOpen := Some(reply.value.door == Opened))));
          }
        } else {
          ok := copy.locked.None?;
        }
      }
    }

    method PollPassageMode(copy: LockState, now: Time, reply: Reply<nat>) returns (result: LockState, ok: bool)
      modifies this`calls, this`passageLastFetched
      ensures Under(result, !ok) == FetchPassageMode(cfg, old(Under(copy, false)), now, reply)
    {
      result, ok := copy, true;
      if SlowTierDue(passageLastFetched, now) {
        Query(PassageMode, now);
        if reply.Failure? {
          return copy, false;
        }
        result := copy.(passageMode := Some(reply.value));
        passageLastFetched := Some(now);
      }
    }

    method PollGateways(copy: LockState, now: Time, reply: Reply<seq<nat>>) returns (result: LockState, ok: bool)
      modifies this`calls, this`gatewaysLastFetched
      ensures Under(result, !ok) == FetchGateways(cfg, old(Under(copy, false)), now, reply)
    {
      result, ok := copy, true;
      if !cfg.hasGateway {
        result := copy.(gateways := []);
      } else if SlowTierDue(gatewaysLastFetched, now) {
        Query(LockGateways, now);
        if reply.Failure? {
          return copy, false;
        }
        result := copy.(gateways := reply.value);
        gatewaysLastFetched := Some(now);
      }
    }

    method PollCodes(copy: LockState, now: Time, passcodes: Reply<seq<nat>>, ekeys: Reply<seq<nat>>)
      returns (result: LockState, ok: bool)
      modifies this`calls, this`codesLastFetched
      ensures Under(result, !ok) == FetchCodes(cfg, old(Under(copy, false)), now, passcodes, ekeys)
    {
      result, ok := copy, true;
      if SlowTierDue(codesLastFetched, now) {
        Query(Passcodes, now);
        if passcodes.Failure? {
          return copy, false;
        }
        Query(Ekeys, now);
        if ekeys.Failure? {
          return copy, false;
        }
        result := copy.(passcodes := Some(passcodes.value), ekeys := Some(ekeys.value));
        codesLastFetched := Some(now);
      }
    }

    /** The poll as far as the lock's state. */
    method PollVerified(now: Time, webhookConfirmed: bool, answers: Answers) returns (copy: LockState, ok: bool)
      requires store.Valid()
      modifies this`calls, this`detailsLastFetched, this`sensorRecheckDone, store, store.disk
      ensures store.Valid() && Under(copy, !ok) == Verified(cfg, Start(old(State())), now, webhookConfirmed, answers)
      ensures forall other :: other != lockId ==>
                RecordOf(store.Contents(), other) == old(RecordOf(store.Contents(), other))
    {
      copy, ok := PollDetails(data, now, answers.details);
      if ok {
        copy, ok := PollSensor(copy, now, answers.sensor);
      }
      if ok {
        copy, ok := PollState(copy, now, webhookConfirmed, answers.local, answers.state);
      }
    }

    method PollExtended(before: LockState, now: Time, answers: Answers) returns (copy: LockState, ok: bool)
      modifies this`calls, this`passageLastFetched, this`gatewaysLastFetched, this`codesLastFetched
      ensures Under(copy, !ok) == Extended(cfg, old(Under(before, false)), now, answers)
    {
      copy, ok := PollPassageMode(before, now, answers.passage);
      if ok {
        copy, ok := PollGateways(copy, now, answers.gateways);
      }
      if ok {
        copy, ok := PollCodes(copy, now, answers.passcodes, answers.ekeys);
      }
    }

    /** One scheduled or requested refresh. */
    method UpdateData(now: Time, webhookConfirmed: bool, answers: Answers) returns (ok: bool)
      requires store.Valid()
      modifies this, store, store.disk
      ensures store.Valid() && State() == Step(cfg, old(State()), Poll(now, webhookConfirmed, answers))
      ensures ok == PollSucceeds(cfg, old(State()), now, webhookConfirmed, answers)
      ensures forall other :: other != lockId ==>
                RecordOf(store.Contents(), other) == old(RecordOf(store.Contents(), other))
    {
      if !cfg.connectable {
        return false;
      }
      var copy;
      copy, ok := PollVerified(now, webhookConfirmed, answers);
      if !ok {
        ExtendedKeeps(cfg, Under(copy, true), now, answers);
        return false;
      }
      copy, ok := PollExtended(copy, now, answers);
      if ok {
        data := copy;
      }
    }

    // -------------------------------------------------------------- between polls

    method HandleAutoLock(push: Push, now: Time)
      modifies this`autoLocks
      ensures autoLocks == old(autoLocks)
                + if AutoLockDelay(data, push.passage).Some?
                      then [now + AutoLockWait(data.autoLockSeconds.value, push)] else []
    {
      if data.autoLockSeconds.None? || data.autoLockSeconds.value <= 0 || push.passage {
        return;
      }
      var seconds, offset := data.autoLockSeconds.value, 0;
      if push.serverTime > push.lockTime {
        offset := push.serverTime - push.lockTime;
      }
      autoLocks := autoLocks + [if seconds > 0 && seconds - offset > 0 then now + (seconds - offset) else now];
    }

    method ProcessWebhookData(push: Push, now: Time)
      modifies this`data, this`autoLocks
      ensures State() == Step(cfg, old(State()), Pushed(push, now))
    {
      if !push.ours || !push.success {
        return;
      }
      var copy := data.(battery := push.battery);
      if push.action.LockAction? {
        copy := copy.(locked := Some(true));
      } else if push.action.UnlockAction? {
        copy := copy.(locked := Some(false));
        HandleAutoLock(push, now);
      }
      if push.action.LockAction? || push.action.UnlockAction? {
        copy := copy.(lastUser := push.user, lastReason := Some(Described(push.code)));
      }
      if Present(copy.sensor) {
        if push.action.OpenAction? {
          copy := copy.(sensor := Some(copy.sensor.value.(doorOpen := Some(true))));
        }
        if push.action.CloseAction? {
          copy := copy.(sensor := Some(copy.sensor.value.(doorOpen := Some(false))));
          copy := copy.(locked := Some(true), lastReason := Some(DoorClosed));
        }
      }
      data := copy;
    }

    /** An auto-lock task whose wait is over. */
    method AutoLockFires(task: nat, now: Time)
      requires task < |autoLocks| && autoLocks[task] <= now
      modifies this`data, this`autoLocks
      ensures State() == Step(cfg, old(State()), AutoLocked(task, now))
    {
      autoLocks := autoLocks[..task] + autoLocks[task + 1..];
      data := data.(locked := Some(true), lastReason := Some(AutoLock));
    }

    method LockIt(accepted: bool)
      modifies this`data
      ensures State() == Step(cfg, old(State()), LockCommand(accepted))
    {
      if accepted {
        data := data.(locked := Some(true));
      }
    }

    method UnlockIt(accepted: bool)
      modifies this`data
      ensures State() == Step(cfg, old(State()), UnlockCommand(accepted))
    {
      if accepted {
        data := data.(locked := Some(false));
      }
    }

    method RefreshCodesNow(now: Time, passcodes: Reply<seq<nat>>, ekeys: Reply<seq<nat>>)
      modifies this`data, this`calls, this`codesLastFetched
      ensures State() == Step(cfg, old(State()), RefreshCodes(now, passcodes, ekeys))
    {
      Query(Passcodes, now);
      if passcodes.Failure? {
        return;
      }
      Query(Ekeys, now);
      if ekeys.Failure? {
        return;
      }
      data := data.(passcodes := Some(passcodes.value), ekeys := Some(ekeys.value));
      codesLastFetched := Some(now);
    }
  }

  /** A restart: a new store object over the same disk and a new coordinator over it. */
  method RestartAll(before: LockUpdateCoordinator, seed: LockState) returns (after: LockUpdateCoordinator)
    requires before.store.Valid() && IsSeed(seed)
    ensures fresh(after) && after.store.Valid() && after.store.disk == before.store.disk
    ensures after.State() == Step(before.cfg, before.State(), Restart(seed))
  {
    var store := new LockStateStore(before.store.disk);
    after := new LockUpdateCoordinator(before.lockId, before.cfg, seed, store, before.calls);
  }
}
