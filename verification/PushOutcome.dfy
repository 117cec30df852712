/** What pushed records and commands do to a lock's published state, and what the state is after any run. */
module PushOutcome {
  import opened Bytes
  import opened LockStore
  import opened LockCoordinator
  import opened CoordinatorRuns
  import opened PollOutcome

  // ---------------------------------------------------------------- one record

  /** A record of this lock that says it succeeded. */
  predicate Counts(push: Push) {
    push.ours && push.success
  }

  /** What a record that counts leaves published. A lock or unlock record tells the state, the user and the reason; a
      closed door, if a sensor is there to say so, tells that it locked; an opened one only that it is open. */
  lemma PushPublishes(cfg: Config, l: Lock, push: Push, now: Time)
    requires Counts(push)
    ensures var d := Step(cfg, l, Pushed(push, now)).data;
            && (push.action.LockAction? ==> d.locked == Some(true))
            && (push.action.UnlockAction? ==> d.locked == Some(false))
            && (push.action.LockAction? || push.action.UnlockAction? ==>
                  d.lastUser == push.user && d.lastReason == Some(Described(push.code)) && d.sensor == l.data.sensor)
            && (push.action.CloseAction? && Present(l.data.sensor) ==>
                  && d.locked == Some(true) && d.lastReason == Some(DoorClosed) && d.lastUser == l.data.lastUser
                  && d.sensor == Some(l.data.sensor.value.(doorOpen := Some(false))))
            && (push.action.OpenAction? && Present(l.data.sensor) ==>
                  d.sensor == Some(l.data.sensor.value.(doorOpen := Some(true))))
            && (push.action.OpenAction? ==>
                  d.locked == l.data.locked && d.lastUser == l.data.lastUser && d.lastReason == l.data.lastReason)
            && (push.action.OtherAction? || ((push.action.OpenAction? || push.action.CloseAction?)
                                             && !Present(l.data.sensor)) ==>
                  d == l.data.(battery := push.battery))
            && d.battery == push.battery
            && d == l.data.(battery := d.battery, locked := d.locked, sensor := d.sensor, lastUser := d.lastUser,
                            lastReason := d.lastReason)
  {
  }

  /** Another lock's record, or one that did not succeed, changes nothing at all; no record asks the cloud anything. */
  lemma PushLeavesAlone(cfg: Config, l: Lock, push: Push, now: Time)
    ensures var after := Step(cfg, l, Pushed(push, now));
            && (!Counts(push) ==> after == l)
            && after.calls == l.calls && after.gates == l.gates && after.record == l.record
  {
  }

  /** A task to lock again is started by an unlock record that counts, with a delay set and no passage mode, and by
      nothing else; none is lost but by firing or a restart. */
  lemma TaskStartedIff(cfg: Config, l: Lock, e: Event)
    ensures |Step(cfg, l, e).autoLocks| > |l.autoLocks|
       <==> e.Pushed? && Counts(e.push) && e.push.action.UnlockAction? && !e.push.passage
            && l.data.autoLockSeconds.Some? && l.data.autoLockSeconds.value > 0
    ensures |Step(cfg, l, e).autoLocks| < |l.autoLocks|
       <==> (e.AutoLocked? && e.task < |l.autoLocks| && l.autoLocks[e.task] <= e.now)
            || (e.Restart? && IsSeed(e.seed) && l.autoLocks != [])
  {
  }

  // ---------------------------------------------------------------- commands

  /** What a command leaves published: what was asked for if the cloud took it, and else nothing new. */
  lemma CommandPublishes(cfg: Config, l: Lock, accepted: bool, on: bool)
    ensures Step(cfg, l, LockCommand(accepted)) == if accepted then l.(data := l.data.(locked := Some(true))) else l
    ensures Step(cfg, l, UnlockCommand(accepted)) == if accepted then l.(data := l.data.(locked := Some(false))) else l
    ensures var after := Step(cfg, l, SetAutoLock(on, accepted));
            && after == l.(data := l.data.(autoLockSeconds := after.data.autoLockSeconds))
            && after.data.autoLockSeconds
               == if !accepted then l.data.autoLockSeconds else if on then Some(10) else Some(0)
  {
  }

  /** A task fires when it is due or later: the lock is locked, the reason says so, and just that task is gone. */
  lemma FiringPublishes(cfg: Config, l: Lock, task: nat, now: Time)
    ensures var after := Step(cfg, l, AutoLocked(task, now));
            if task < |l.autoLocks| && l.autoLocks[task] <= now
            then && after.data == l.data.(locked := Some(true), lastReason := Some(AutoLock))
                 && |after.autoLocks| == |l.autoLocks| - 1
                 && (forall i :: 0 <= i < task ==> after.autoLocks[i] == l.autoLocks[i])
                 && (forall i :: task <= i < |after.autoLocks| ==> after.autoLocks[i] == l.autoLocks[i + 1])
                 && after.gates == l.gates && after.record == l.record && after.calls == l.calls
            else after == l
  {
  }

  /** Refreshing codes by hand asks for the passcodes, and once they are answered for the eKeys; both are published, and
      their slow interval starts anew, when both are answered, and else nothing is. */
  lemma RefreshPublishes(cfg: Config, l: Lock, now: Time, passcodes: Reply<seq<nat>>, ekeys: Reply<seq<nat>>)
    ensures var after := Step(cfg, l, RefreshCodes(now, passcodes, ekeys));
            && after.calls == l.calls + (if passcodes.Answer? then [ApiCall(Passcodes, now), ApiCall(Ekeys, now)]
                                         else [ApiCall(Passcodes, now)])
            && (passcodes.Answer? && ekeys.Answer? ==>
                  && after.data.passcodes == Some(passcodes.value) && after.data.ekeys == Some(ekeys.value)
                  && after.data == l.data.(passcodes := after.data.passcodes, ekeys := after.data.ekeys)
                  && after.gates == l.gates.(codes := Some(now)))
            && (!(passcodes.Answer? && ekeys.Answer?) ==> after.data == l.data && after.gates == l.gates)
            && after.autoLocks == l.autoLocks && after.record == l.record
  {
  }

  /** The update service makes the state unknown and nothing else. */
  lemma UpdatePublishes(cfg: Config, l: Lock)
    ensures Step(cfg, l, UpdateState) == l.(data := l.data.(locked := None))
  {
  }

  /** A restart starts from a lock's seed data with no gates and no tasks, and keeps the sensor's record. */
  lemma RestartPublishes(cfg: Config, l: Lock, seed: LockState)
    ensures var after := Step(cfg, l, Restart(seed));
            && after.record == l.record && after.calls == l.calls
            && (IsSeed(seed) ==>
                  after.data == seed && after.autoLocks == [] && after.gates == Gates(None, None, None, None, false))
  {
  }

  // ---------------------------------------------------------------- the state after any run

  /** What an event says of the lock's state, if anything: that it is locked or not, or that it is not known. */
  datatype Word = Silent | Says(locked: Option<bool>)

  /** Told from the event and what was known before, not from what the code does with it. */
  function WordOf(cfg: Config, l: Lock, e: Event): Word {
    match e
    case Poll(now, confirmed, answers) =>
      if !PollSucceeds(cfg, l, now, confirmed, answers) || LeftToWebhook(cfg, l, confirmed, answers) then Silent
      else if ToldLocally(answers) then Says(answers.local.value.locked)
      else if answers.state.Answer? then Says(Some(answers.state.value.position == Locked))
      else Silent
    case Pushed(push, now) =>
      if !Counts(push) then Silent
      else if push.action.LockAction? || (push.action.CloseAction? && Present(l.data.sensor)) then Says(Some(true))
      else if push.action.UnlockAction? then Says(Some(false))
      else Silent
    case AutoLocked(task, now) =>
      if task < |l.autoLocks| && l.autoLocks[task] <= now then Says(Some(true)) else Silent
    case LockCommand(accepted) => if accepted then Says(Some(true)) else Silent
    case UnlockCommand(accepted) => if accepted then Says(Some(false)) else Silent
    case UpdateState => Says(None)
    case Restart(seed) => if IsSeed(seed) then Says(None) else Silent
    case SetAutoLock(_, _) => Silent
    case RefreshCodes(_, _, _) => Silent
  }

  predicate Kept(before: Option<bool>, word: Word, after: Option<bool>) {
    after == if word.Says? then word.locked else before
  }

  /** A poll that has to ask for the state and gets no answer fails, unless the state was not known. */
  lemma UnansweredWasUnknown(cfg: Config, l: Lock, now: Time, confirmed: bool, answers: Answers)
    requires PollSucceeds(cfg, l, now, confirmed, answers) && answers.state.Failure?
    requires !ToldLocally(answers) && !LeftToWebhook(cfg, l, confirmed, answers)
    ensures l.data.locked.None?
  {
  }

  lemma PollKeepsItsWord(cfg: Config, l: Lock, now: Time, confirmed: bool, answers: Answers)
    ensures Kept(l.data.locked, WordOf(cfg, l, Poll(now, confirmed, answers)),
                 PollStep(cfg, l, now, confirmed, answers).data.locked)
  {
    if PollSucceeds(cfg, l, now, confirmed, answers) {
      PollPublishes(cfg, l, now, confirmed, answers);
      if answers.state.Failure? && !ToldLocally(answers) && !LeftToWebhook(cfg, l, confirmed, answers) {
        UnansweredWasUnknown(cfg, l, now, confirmed, answers);
      }
    }
  }

  lemma OthersKeepTheirWord(cfg: Config, l: Lock, e: Event)
    requires !e.Poll?
    ensures Kept(l.data.locked, WordOf(cfg, l, e), Step(cfg, l, e).data.locked)
  {
  }

  /** Event by event, what each says of the state. */
  function Words(cfg: Config, l: Lock, es: seq<Event>): (words: seq<Word>)
    ensures |words| == |es|
  {
    if es == [] then []
    else
      var rest := es[..|es| - 1];
      Words(cfg, l, rest) + [WordOf(cfg, Run(cfg, l, rest), es[|es| - 1])]
  }

  predicate LastWord(words: seq<Word>, i: nat) {
    i < |words| && words[i].Says? && forall j :: i < j < |words| ==> words[j].Silent?
  }

  predicate AllSilent(words: seq<Word>) {
    forall i :: 0 <= i < |words| ==> words[i].Silent?
  }

  lemma OneMoreWord(words: seq<Word>, word: Word, i: nat)
    ensures LastWord(words + [word], i) ==> if word.Says? then i == |words| else LastWord(words, i)
    ensures AllSilent(words + [word]) ==> AllSilent(words) && word.Silent?
  {
    var more := words + [word];
    assert more[|words|] == word;
    assert forall j :: 0 <= j < |words| ==> more[j] == words[j];
  }

  /** After any run the lock's state is what the last event that says anything of it said, and if none did, what it
      was. */
  lemma {:induction false} StateIsLastWord(cfg: Config, l: Lock, es: seq<Event>)
    ensures forall i: nat :: LastWord(Words(cfg, l, es), i) ==>
              Run(cfg, l, es).data.locked == Words(cfg, l, es)[i].locked
    ensures AllSilent(Words(cfg, l, es)) ==> Run(cfg, l, es).data.locked == l.data.locked
  {
    if es != [] {
      var rest, e := es[..|es| - 1], es[|es| - 1];
      var before, words := Run(cfg, l, rest), Words(cfg, l, rest);
      StateIsLastWord(cfg, l, rest);
      StepKeepsItsWord(cfg, before, e);
      forall i: nat
        ensures LastWord(words + [WordOf(cfg, before, e)], i) ==>
                  if WordOf(cfg, before, e).Says? then i == |words| else LastWord(words, i)
      {
        OneMoreWord(words, WordOf(cfg, before, e), i);
      }
      OneMoreWord(words, WordOf(cfg, before, e), 0);
    }
  }

  lemma StepKeepsItsWord(cfg: Config, l: Lock, e: Event)
    ensures Kept(l.data.locked, WordOf(cfg, l, e), Step(cfg, l, e).data.locked)
  {
    if e.Poll? {
      PollKeepsItsWord(cfg, l, e.now, e.webhookConfirmed, e.answers);
    } else {
      OthersKeepTheirWord(cfg, l, e);
    }
  }
}
