/** Per-lock state that survives restarts: a map on disk, read once and written on every change. */
module LockStore {
  import opened Bytes

  type Time = int // in seconds

  /** What is remembered about a lock's door sensor; an attribute never written is `None`. */
  datatype SensorRecord = SensorRecord(confirmedAbsent: Option<bool>, failures: Option<nat>, lastFailed: Option<Time>)

  const NOTHING := SensorRecord(None, None, None)

  function Either<T>(update: Option<T>, kept: Option<T>): Option<T> {
    if update.Some? then update else kept
  }

  /** The given attributes over the stored ones. */
  function Merge(stored: SensorRecord, given: SensorRecord): SensorRecord {
    SensorRecord(
      Either(given.confirmedAbsent, stored.confirmedAbsent),
      Either(given.failures, stored.failures),
      Either(given.lastFailed, stored.lastFailed))
  }

  /** An attribute given is stored, one not given stays as it was. */
  lemma MergeKeeps(stored: SensorRecord, given: SensorRecord)
    ensures var merged := Merge(stored, given);
            && (given.confirmedAbsent.Some? ==> merged.confirmedAbsent == given.confirmedAbsent)
            && (given.confirmedAbsent.None? ==> merged.confirmedAbsent == stored.confirmedAbsent)
            && (given.failures.Some? ==> merged.failures == given.failures)
            && (given.failures.None? ==> merged.failures == stored.failures)
            && (given.lastFailed.Some? ==> merged.lastFailed == given.lastFailed)
            && (given.lastFailed.None? ==> merged.lastFailed == stored.lastFailed)
  {
  }

  function RecordOf(records: map<nat, SensorRecord>, lock: nat): SensorRecord {
    if lock in records then records[lock] else NOTHING
  }

  class Disk {
    var saved: Option<map<nat, SensorRecord>>

    constructor ()
      ensures saved == None
    {
      saved := None;
    }
  }

  class LockStateStore {
    const disk: Disk
    var data: Option<map<nat, SensorRecord>>

    constructor (disk: Disk)
      ensures this.disk == disk && data == None && Valid()
      ensures Contents() == if disk.saved.Some? then disk.saved.value else map[]
    {
      this.disk := disk;
      data := None;
    }

    /** Once read, what is in memory is what is on disk, or nothing was ever saved. */
    ghost predicate Valid()
      reads this, disk
    {
      data.Some? ==> data.value == if disk.saved.Some? then disk.saved.value else map[]
    }

    /** What a store opened on this disk, now or after a restart, answers from. */
    ghost function Contents(): map<nat, SensorRecord>
      reads this, disk
    {
      if disk.saved.Some? then disk.saved.value else map[]
    }

    method Load() returns (records: map<nat, SensorRecord>)
      requires Valid()
      modifies this`data
      ensures Valid() && records == Contents() && data == Some(records)
    {
      if data.None? {
        data := Some(if disk.saved.Some? then disk.saved.value else map[]);
      }
      records := data.value;
    }

    method Get(lock: nat) returns (record: SensorRecord)
      requires Valid()
      modifies this`data
      ensures Valid() && record == RecordOf(Contents(), lock)
    {
      var records := Load();
      record := if lock in records then records[lock] else NOTHING;
    }

    /** Merge attributes into a lock's entry and save. */
    method Update(lock: nat, given: SensorRecord)
      requires Valid()
      modifies this, disk
      ensures Valid() && Contents() == old(Contents())[lock := Merge(RecordOf(old(Contents()), lock), given)]
    {
      var records := Load();
      records := records[lock := Merge(if lock in records then records[lock] else NOTHING, given)];
      data := Some(records);
      disk.saved := data;
    }
  }

  /** What one store wrote, the store opened on the same disk after a restart reads back, whatever else was
      written about other locks in between. */
  method WriteRestartRead(disk: Disk, lock: nat, given: SensorRecord, other: nat, noise: SensorRecord)
    returns (record: SensorRecord)
    requires other != lock
    modifies disk
    ensures record == Merge(RecordOf(old(if disk.saved.Some? then disk.saved.value else map[]), lock), given)
  {
    var before := new LockStateStore(disk);
    before.Update(lock, given);
    before.Update(other, noise);
    var after := new LockStateStore(disk);
    record := after.Get(lock);
  }
}
