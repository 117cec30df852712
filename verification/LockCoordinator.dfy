/** One poll of a lock, and the pushes and commands between polls. */
module LockCoordinator {
  import opened Bytes
  import opened LockStore

  const DAY: Time := 86400
  const ABSENT_AFTER_FAILURES := 3

  // ---------------------------------------------------------------- data

  datatype SensorData = SensorData(doorOpen: Option<bool>, battery: Option<int>, lastFetched: Option<Time>)

  datatype Reason = AutoLock | DoorClosed | Described(code: nat)

  /** The published state of a lock. `about` stands for what is only copied: name, model, revisions, sound. */
  datatype LockState = LockState(
    about: nat, doorSensor: bool, battery: Option<int>, autoLockSeconds: Option<int>, locked: Option<bool>,
    sensor: Option<SensorData>, passageMode: Option<nat>, gateways: seq<nat>,
    passcodes: Option<seq<nat>>, ekeys: Option<seq<nat>>, lastUser: Option<nat>, lastReason: Option<Reason>)

  predicate Present(sensor: Option<SensorData>) {
    sensor.Some? && sensor.value.battery.Some?
  }

  /** When each slow fetch was last made, and whether this restart's recheck for a sensor has been. */
  datatype Gates = Gates(
    details: Option<Time>, passage: Option<Time>, gateways: Option<Time>, codes: Option<Time>, recheckDone: bool)

  datatype Config = Config(connectable: bool, hasGateway: bool, slowInterval: Time, webhookOnly: bool)

  datatype Endpoint =
    LockDetail | DoorSensor | OpenState | PassageMode | LockGateways | Passcodes | Ekeys

  datatype ApiCall = ApiCall(endpoint: Endpoint, at: Time)

  // ---------------------------------------------------------------- what the outside answers

  datatype Reply<+T> = Answer(value: T) | Failure

  datatype Details = Details(about: nat, doorSensor: bool, battery: Option<int>, autoLockSeconds: Option<int>)

  datatype SensorReply = SensorReply(battery: Option<int>)

  datatype Position = Locked | Unlocked | Unknown
  datatype Door = Opened | Closed | NoReading

  datatype StateReply = StateReply(position: Position, door: Door)

  /** A state read over Bluetooth. */
  datatype LocalStatus = LocalStatus(locked: Option<bool>, battery: Option<int>, doorOpen: Option<bool>)

  /** Everything a poll may hear: the local read, and the cloud's replies to what it might ask. A sensor query
      answered `None` is the cloud's request failure, which stands for "no sensor". */
  datatype Answers = Answers(
    local: Option<LocalStatus>, details: Reply<Details>, sensor: Reply<Option<SensorReply>>,
    state: Reply<StateReply>, passage: Reply<nat>, gateways: Reply<seq<nat>>,
    passcodes: Reply<seq<nat>>, ekeys: Reply<seq<nat>>)

  // ---------------------------------------------------------------- one poll

  /** A poll on its way: the copy it works on, the gates, the persisted record, the calls made so far. */
  datatype Attempt = Attempt(data: LockState, gates: Gates, record: SensorRecord, calls: seq<ApiCall>, failed: bool)

  function Ask(a: Attempt, endpoint: Endpoint, now: Time): Attempt {
    a.(calls := a.calls + [ApiCall(endpoint, now)])
  }

  predicate Due(last: Option<Time>, now: Time, interval: Time) {
    last.None? || last.value <= now - interval
  }

  function FetchDetails(cfg: Config, a: Attempt, now: Time, reply: Reply<Details>): Attempt {
    if a.failed || !Due(a.gates.details, now, cfg.slowInterval) then a
    else
      match reply
      case Failure => Ask(a, LockDetail, now).(failed := true)
      case Answer(d) =>
        Ask(a, LockDetail, now).(
          data := a.data.(about := d.about, doorSensor := d.doorSensor, battery := d.battery,
                autoLockSeconds := d.autoLockSeconds),
          gates := a.gates.(details := Some(now)))
  }

  /** A sensor known to be there: its battery is read again after more than a day. */
  function UpdatePresentSensor(a: Attempt, sensor: SensorData, now: Time, reply: Reply<Option<SensorReply>>): Attempt {
    if sensor.lastFetched.Some? && sensor.lastFetched.value >= now - DAY
          then a.(data := a.data.(sensor := Some(sensor)))
    else
      match reply
      case Failure => Ask(a, DoorSensor, now).(failed := true)
      case Answer(r) =>
        Ask(a, DoorSensor, now).(
          data := a.data.(sensor := Some(sensor.(
            lastFetched := Some(now), battery := if r.Some? then r.value.battery else sensor.battery))))
  }

  predicate ConfirmedAbsent(record: SensorRecord) {
    record.confirmedAbsent == Some(true)
  }

  function Failures(record: SensorRecord): nat {
    if record.failures.Some? then record.failures.value else 0
  }

  /** Whether a lock without a known sensor is to be probed for one. */
  predicate ProbeDue(record: SensorRecord, recheckDone: bool, now: Time) {
    if ConfirmedAbsent(record) then !recheckDone
    else !(record.lastFailed.Some? && record.lastFailed.value >= now - DAY)
  }

  /** The record after a probe: a sensor found clears the count, one more failure is counted unless the verdict
      was in already. */
  function ProbedRecord(record: SensorRecord, found: bool, now: Time): SensorRecord {
    if found then Merge(record, SensorRecord(Some(false), Some(0), None))
    else if ConfirmedAbsent(record) then record
    else
      var failures := Failures(record) + 1;
      Merge(record, SensorRecord(Some(failures >= ABSENT_AFTER_FAILURES), Some(failures), Some(now)))
  }

  function CheckForSensor(a: Attempt, sensor: SensorData, now: Time, reply: Reply<Option<SensorReply>>): Attempt {
    var sensed := a.(data := a.data.(sensor := Some(sensor)));
    if !ProbeDue(a.record, a.gates.recheckDone, now) then sensed
    else
      var asked := Ask(sensed, DoorSensor, now).(
        gates := a.gates.(recheckDone := a.gates.recheckDone || ConfirmedAbsent(a.record)));
      match reply
      case Failure => asked.(failed := true)
      case Answer(r) =>
        var record := ProbedRecord(a.record, r.Some?, now);
        asked.(
          data := a.data.(sensor := Some(sensor.(
            lastFetched := Some(now), battery := if r.Some? then r.value.battery else sensor.battery))),
          gates := asked.gates.(recheckDone := asked.gates.recheckDone || (r.None? && ConfirmedAbsent(record))),
          record := record)
  }

  function RefreshSensor(a: Attempt, now: Time, reply: Reply<Option<SensorReply>>): Attempt {
    if a.failed then a
    else if !a.data.doorSensor then a.(data := a.data.(sensor := None))
    else
      var sensor := if a.data.sensor.Some? then a.data.sensor.value else SensorData(None, None, None);
      if sensor.battery.Some? then UpdatePresentSensor(a, sensor, now, reply) else CheckForSensor(a, sensor, now, reply)
  }

  function SetOpened(sensor: Option<SensorData>, doorOpen: bool): Option<SensorData> {
    if Present(sensor) then Some(sensor.value.(doorOpen := Some(doorOpen))) else sensor
  }

  /** The lock's state itself: read locally, left to the webhook, or asked of the cloud. */
  function VerifyState(cfg: Config, a: Attempt, now: Time, webhookConfirmed: bool, local: Option<LocalStatus>,
          reply: Reply<StateReply>): Attempt {
    if a.failed then a
    else if local.Some? && local.value.locked.Some? then
      a.(data := a.data.(
        locked := local.value.locked,
        battery := Either(local.value.battery, a.data.battery),
        sensor := if local.value.doorOpen.Some? then SetOpened(a.data.sensor, local.value.doorOpen.value)
              else a.data.sensor))
    else if cfg.webhookOnly && webhookConfirmed && a.data.locked.Some? then a
    else
      match reply
      case Failure => Ask(a, OpenState, now).(failed := a.data.locked.Some?)
      case Answer(s) =>
        Ask(a, OpenState, now).(
          data := a.data.(locked := Some(s.position == Locked), sensor := SetOpened(a.data.sensor, s.door == Opened)))
  }

  function FetchPassageMode(cfg: Config, a: Attempt, now: Time, reply: Reply<nat>): Attempt {
    if a.failed || !Due(a.gates.passage, now, cfg.slowInterval) then a
    else
      match reply
      case Failure => Ask(a, PassageMode, now).(failed := true)
      case Answer(p) =>
        Ask(a, PassageMode, now).(data := a.data.(passageMode := Some(p)), gates := a.gates.(passage := Some(now)))
  }

  function FetchGateways(cfg: Config, a: Attempt, now: Time, reply: Reply<seq<nat>>): Attempt {
    if a.failed then a
    else if !cfg.hasGateway then a.(data := a.data.(gateways := []))
    else if !Due(a.gates.gateways, now, cfg.slowInterval) then a
    else
      match reply
      case Failure => Ask(a, LockGateways, now).(failed := true)
      case Answer(gs) =>
        Ask(a, LockGateways, now).(data := a.data.(gateways := gs), gates := a.gates.(gateways := Some(now)))
  }

  function FetchCodes(cfg: Config, a: Attempt, now: Time, passcodes: Reply<seq<nat>>, ekeys: Reply<seq<nat>>): Attempt {
    if a.failed || !Due(a.gates.codes, now, cfg.slowInterval) then a
    else
      match passcodes
      case Failure => Ask(a, Passcodes, now).(failed := true)
      case Answer(ps) =>
        match ekeys
        case Failure => Ask(Ask(a, Passcodes, now), Ekeys, now).(failed := true)
        case Answer(es) =>
          Ask(Ask(a, Passcodes, now), Ekeys, now).(
            data := a.data.(passcodes := Some(ps), ekeys := Some(es)), gates := a.gates.(codes := Some(now)))
  }

  /** A poll as far as the lock's state. */
  function Verified(cfg: Config, a: Attempt, now: Time, webhookConfirmed: bool, answers: Answers): Attempt {
    var sensed := RefreshSensor(FetchDetails(cfg, a, now, answers.details), now, answers.sensor);
    VerifyState(cfg, sensed, now, webhookConfirmed, answers.local, answers.state)
  }

  /** The fetches after it. */
  function Extended(cfg: Config, a: Attempt, now: Time, answers: Answers): Attempt {
    var linked := FetchGateways(cfg, FetchPassageMode(cfg, a, now, answers.passage), now, answers.gateways);
    FetchCodes(cfg, linked, now, answers.passcodes, answers.ekeys)
  }

  /** The whole poll of a lock that can be reached. */
  function Attempted(cfg: Config, a: Attempt, now: Time, webhookConfirmed: bool, answers: Answers): Attempt {
    Extended(cfg, Verified(cfg, a, now, webhookConfirmed, answers), now, answers)
  }

  // ---------------------------------------------------------------- the coordinator's whole state

  /** `autoLocks` are the times the auto-lock tasks under way are due; `calls` is the history of queries. */
  datatype Lock = Lock(data: LockState, gates: Gates, record: SensorRecord, autoLocks: seq<Time>, calls: seq<ApiCall>)

  function Start(l: Lock): Attempt {
    Attempt(l.data, l.gates, l.record, l.calls, false)
  }

  predicate PollSucceeds(cfg: Config, l: Lock, now: Time, webhookConfirmed: bool, answers: Answers) {
    cfg.connectable && !Attempted(cfg, Start(l), now, webhookConfirmed, answers).failed
  }

  /** A poll publishes its copy at the end, if it gets there; gates, record and calls count in any case. */
  function PollStep(cfg: Config, l: Lock, now: Time, webhookConfirmed: bool, answers: Answers): Lock {
    if !cfg.connectable then l
    else
      var a := Attempted(cfg, Start(l), now, webhookConfirmed, answers);
      l.(data := if a.failed then l.data else a.data, gates := a.gates, record := a.record, calls := a.calls)
  }

  /** A webhook record. `passage` says whether passage mode is on at its lock time. */
  datatype Push = Push(
    ours: bool, success: bool, battery: Option<int>, action: Action, user: Option<nat>, code: nat,
    lockTime: Time, serverTime: Time, passage: bool)

  datatype Action = LockAction | UnlockAction | CloseAction | OpenAction | OtherAction

  function AutoLockDelay(data: LockState, passage: bool): Option<int> {
    if data.autoLockSeconds.None? || data.autoLockSeconds.value <= 0 || passage then None else data.autoLockSeconds
  }

  /** How long a task waits: the delay, less what the message was under way. */
  function AutoLockWait(seconds: int, push: Push): (wait: int)
    ensures wait >= 0
  {
    var offset := if push.serverTime > push.lockTime then push.serverTime - push.lockTime else 0;
    if seconds > offset then seconds - offset else 0
  }

  function PushedData(data: LockState, push: Push): LockState {
    var moved := match push.action
      case LockAction => data.(locked := Some(true), lastUser := push.user, lastReason := Some(Described(push.code)))
      case UnlockAction => data.(locked := Some(false), lastUser := push.user, lastReason := Some(Described(push.code)))
      case _ => data;
    var swung := if push.action.OpenAction? then moved.(sensor := SetOpened(moved.sensor, true))
      else if push.action.CloseAction? && Present(moved.sensor)
      then moved.(sensor := SetOpened(moved.sensor, false), locked := Some(true), lastReason := Some(DoorClosed))
      else moved;
    swung.(battery := push.battery)
  }

  function PushStep(l: Lock, push: Push, now: Time): Lock {
    if !push.ours || !push.success then l
    else
      var delay := AutoLockDelay(l.data, push.passage);
      l.(data := PushedData(l.data, push),
         autoLocks := if push.action.UnlockAction? && delay.Some?
                      then l.autoLocks + [now + AutoLockWait(delay.value, push)] else l.autoLocks)
  }
}
