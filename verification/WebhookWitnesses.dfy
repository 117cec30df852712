/** A run that shows what a STOP before its call is finished breaks. No call waits in it for a lock that is free. */
module WebhookWitnesses {
  import opened Bytes
  import opened WebhookConsolidation
  import opened WebhookGroups
  import opened WebhookInvariants
  import opened WebhookSafety
  import opened WebhookLifetime

  /** One entry of one application, with the parts that change. */
  function Lone(d: EntryData, pool: seq<Group>, listed: bool, lock: Option<nat>, calls: map<nat, Call>,
                registry: map<nat, nat>, issues: set<nat>, early: bool): Hub
  {
    var groups := if listed then map[0 := 0] else map[];
    Hub([0], map[0 := 0], map[0 := d], pool, groups, lock, calls, registry, issues, early)
  }

  function One(stage: Stage, group: Option<nat>, stop: Stop): map<nat, Call> {
    map[0 := Call(0, stage, group, stop)]
  }

  /** A call starts, finds no group, makes one, and while the cloud is asked for its URL is overtaken by its own STOP
      callback, which takes the group away before the call registers. */
  const OVERTAKEN: seq<Event> :=
    [Start(0, 0), Resolve(0), Resolved(0, {}, 7), StopBegin(0), StopEnd(0), Publish(0, CloudUrl(1)), Register(0)]

  function Overtaken(i: nat): Hub {
    var bare, held := EntryData(None, None, None), EntryData(Some(7), None, None);
    var full := EntryData(Some(7), Some(Url(7, 1)), None);
    match i
    case 0 => Lone(bare, [], false, None, map[], map[], {}, false)
    case 1 => Lone(bare, [], false, None, One(Waiting, None, NotListening), map[], {}, false)
    case 2 => Lone(bare, [], false, Some(0), One(Resolving, None, NotListening), map[], {}, false)
    case 3 => Lone(held, [Group(7, 1, false, false, false, 0, 0, 0)], true, None,
                   One(GettingUrl(7), Some(0), Listening), map[], {}, false)
    case 4 => Lone(held, [Group(7, 1, false, false, false, 0, 0, 0)], true, None,
                   One(GettingUrl(7), Some(0), Stopping(7)), map[], {}, true)
    case 5 => Lone(held, [Group(7, 0, false, false, false, 0, 0, 0)], false, None,
                   One(GettingUrl(7), Some(0), Stopped), map[], {}, true)
    case 6 => Lone(full, [Group(7, 0, false, false, true, 0, 1, 0)], false, None,
                   One(WaitingToRegister, Some(0), Stopped), map[], {0}, true)
    case _ => Lone(full, [Group(7, 0, true, false, true, 0, 1, 1)], false, None,
                   One(Finished(true), Some(0), Stopped), map[7 := 0], {0}, true)
  }

  lemma OvertakenStarts()
    ensures Enabled(Overtaken(0), Start(0, 0)) && StartStep(Overtaken(0), 0, 0) == Overtaken(1)
    ensures Enabled(Overtaken(1), Resolve(0)) && ResolveStep(Overtaken(1), 0) == Overtaken(2)
  {
  }

  /** The call with its group made, before it joins. */
  function OvertakenMade(): Hub {
    Lone(EntryData(Some(7), None, None), [Group(7, 0, false, false, false, 0, 0, 0)], true, None,
         One(Waiting, None, NotListening), map[], {}, false)
  }

  lemma OvertakenConsolidates()
    ensures Enabled(Overtaken(2), Resolved(0, {}, 7)) && Sound(Overtaken(2), 0) && Listed(Overtaken(2))
    ensures Consolidate(Overtaken(2), 0, {}, 7) == OvertakenMade()
  {
    var s := Overtaken(2);
    var entries: seq<nat> := [0];
    assert entries[1..] == [];
    assert Members(s, entries, 0, {}) == [0];
    assert Existing(DataOf(s, [0])) == {};
    assert Consolidate(s, 0, {}, 7).data == OvertakenMade().data;
  }

  lemma OvertakenJoins()
    ensures var s := OvertakenMade();
            Sound(s, 0) && s.pool[0].client == s.client[s.calls[0].entry] && Arrive(s, 0, 0) == Overtaken(3)
  {
    var joined := Join(OvertakenMade(), 0, 0);
    assert joined.data == Overtaken(3).data;
    assert joined.calls == Overtaken(3).calls;
  }

  lemma OvertakenMakesGroup()
    ensures Enabled(Overtaken(2), Resolved(0, {}, 7)) && Sound(Overtaken(2), 0) && Listed(Overtaken(2))
    ensures ResolvedStep(Overtaken(2), 0, {}, 7) == Overtaken(3)
  {
    OvertakenConsolidates();
    OvertakenJoins();
  }

  lemma OvertakenHearsStop()
    ensures Enabled(Overtaken(3), StopBegin(0)) && Sound(Overtaken(3), 0)
    ensures StopBeginStep(Overtaken(3), 0) == Overtaken(4)
  {
    assert StopBeginStep(Overtaken(3), 0).calls == Overtaken(4).calls;
  }

  lemma OvertakenLeaves()
    ensures Enabled(Overtaken(4), StopEnd(0)) && Sound(Overtaken(4), 0)
    ensures StopEndStep(Overtaken(4), 0) == Overtaken(5)
  {
    var s := StopEndStep(Overtaken(4), 0);
    assert s.calls == Overtaken(5).calls;
    assert s.groups == map[] && s.registry == map[];
  }

  lemma OvertakenGetsUrl()
    ensures Enabled(Overtaken(5), Publish(0, CloudUrl(1))) && Sound(Overtaken(5), 0)
    ensures PublishStep(Overtaken(5), 0, CloudUrl(1)) == Overtaken(6)
  {
    var s := PublishStep(Overtaken(5), 0, CloudUrl(1));
    assert s.data == Overtaken(6).data;
    assert s.calls == Overtaken(6).calls;
    assert s.pool == Overtaken(6).pool;
    assert s.issues == {0};
  }

  lemma OvertakenRegisters()
    ensures Enabled(Overtaken(6), Register(0)) && Sound(Overtaken(6), 0)
    ensures RegisterStep(Overtaken(6), 0) == Overtaken(7)
  {
    var s := RegisterStep(Overtaken(6), 0);
    assert s.calls == Overtaken(7).calls;
    assert s.registry == map[7 := 0];
  }

  lemma OvertakenStep(i: nat)
    requires i < 7 && Shape(Overtaken(i))
    ensures Step(Overtaken(i), OVERTAKEN[i]) == Overtaken(i + 1)
  {
    match i
    case 0 => OvertakenStarts();
    case 1 => OvertakenStarts();
    case 2 => OvertakenMakesGroup();
    case 3 => OvertakenHearsStop();
    case 4 => OvertakenLeaves();
    case 5 => OvertakenGetsUrl();
    case 6 => OvertakenRegisters();
  }

  lemma {:induction false} OvertakenAfter(n: nat)
    requires Core(Overtaken(0)) && n <= 7
    ensures Run(Overtaken(0), OVERTAKEN[..n]) == Overtaken(n)
  {
    if n > 0 {
      OvertakenAfter(n - 1);
      assert OVERTAKEN[..n][..n - 1] == OVERTAKEN[..n - 1];
      OvertakenStep(n - 1);
    }
  }

  lemma OvertakenBegins()
    ensures Initial(Overtaken(0)) && Core(Overtaken(0)) && NoGroupAfterStop(OVERTAKEN)
  {
    InitialCore(Overtaken(0));
  }

  lemma OvertakenAtLast()
    requires Core(Overtaken(0))
    ensures Run(Overtaken(0), OVERTAKEN) == Overtaken(7)
  {
    OvertakenAfter(7);
    assert OVERTAKEN[..7] == OVERTAKEN;
  }

  lemma OvertakenEnds()
    ensures var s := Overtaken(7);
            (forall c :: c in s.calls ==> !Listens(s.calls[c])) && s.groups == map[] && s.registry == map[7 := 0]
  {
  }

  /** A STOP while its call still waits for the URL leaves a webhook nobody will unregister: every join is
      undone and no group is left, yet the webhook stays. No group is made after that STOP. */
  lemma EarlyStopLeavesAWebhook()
    ensures Initial(Overtaken(0)) && Core(Overtaken(0)) && NoGroupAfterStop(OVERTAKEN)
    ensures var s := Run(Overtaken(0), OVERTAKEN);
            (forall c :: c in s.calls ==> !Listens(s.calls[c])) && s.groups == map[] && s.registry == map[7 := 0]
  {
    OvertakenBegins();
    OvertakenAtLast();
    OvertakenEnds();
  }
}
