/** One run of Home Assistant: calls start only before it stops, so each application's group is made once. Then what
    is stored and confirmed stays right, however early a STOP callback comes. */
module WebhookLifetime {
  import opened Bytes
  import opened WebhookConsolidation
  import opened WebhookGroups
  import opened WebhookInvariants
  import opened WebhookSafety
  import opened WebhookIds
  import opened WebhookRuns

  // ---------------------------------------------------------------- one group for each application

  /** No two group objects were ever made for one application. */
  ghost predicate MadeOnce(s: Hub) {
    forall g, h :: 0 <= g < |s.pool| && 0 <= h < |s.pool| && s.pool[g].client == s.pool[h].client ==> g == h
  }

  /** Whoever joined a group holds its id, whether the group is still in the dictionary or not. */
  ghost predicate JoinedHoldIds(s: Hub)
    requires Shape(s)
  {
    forall c :: c in s.calls && s.calls[c].group.Some? ==>
      s.data[s.calls[c].entry].webhookId == Some(s.pool[s.calls[c].group.value].webhookId)
  }

  /** Webhooks are registered by calls that joined, and URLs are asked for the group's id. */
  ghost predicate CallsJoined(s: Hub)
    requires Shape(s)
  {
    && (forall id :: id in s.registry ==> s.calls[s.registry[id]].group.Some?)
    && (forall c :: c in s.calls && s.calls[c].stage.GettingUrl? ==>
          s.calls[c].stage.asked == s.pool[s.calls[c].group.value].webhookId)
  }

  ghost predicate OneGroup(s: Hub)
    requires Shape(s)
  {
    MadeOnce(s) && JoinedHoldIds(s) && CallsJoined(s)
  }

  /** The one step that makes a second group for an application. */
  ghost predicate RemakesGroup(s: Hub, e: Event)
    requires Shape(s)
  {
    && e.Resolved? && Enabled(s, e)
    && exists g :: 0 <= g < |s.pool| && s.pool[g].client == s.client[s.calls[e.call].entry]
  }

  /** Steps that make no group and change no id, no handler and nothing that is asked for. */
  ghost predicate KeepsGroups(s: Hub, s': Hub)
    requires Shape(s) && Shape(s')
  {
    && SameIds(s, s')
    && (forall g :: 0 <= g < |s.pool| ==> s'.pool[g].client == s.pool[g].client)
    && (forall id :: id in s'.registry ==> s'.calls[s'.registry[id]].group.Some?)
    && (forall c :: c in s'.calls && s'.calls[c].stage.GettingUrl? ==>
          c in s.calls && s'.calls[c].stage == s.calls[c].stage)
  }

  lemma KeepsOneGroup(s: Hub, s': Hub)
    requires Shape(s) && Shape(s') && OneGroup(s) && KeepsGroups(s, s')
    ensures OneGroup(s')
  {
    forall c | c in s'.calls && s'.calls[c].group.Some?
      ensures s'.data[s'.calls[c].entry].webhookId == Some(s'.pool[s'.calls[c].group.value].webhookId)
    {
      assert ShapeOfCall(s, s.calls[c]);
    }
    forall c | c in s'.calls && s'.calls[c].stage.GettingUrl?
      ensures s'.calls[c].stage.asked == s'.pool[s'.calls[c].group.value].webhookId
    {
      assert ShapeOfCall(s', s'.calls[c]) && ShapeOfCall(s, s.calls[c]);
    }
  }

  lemma OrdinaryClients(s: Hub, e: Event)
    requires Shape(s) && Enabled(s, e) && Ordinary(e)
    ensures var s' := Step(s, e);
            |s'.pool| == |s.pool| && forall g :: 0 <= g < |s.pool| ==> s'.pool[g].client == s.pool[g].client
  {
  }

  lemma OrdinaryAsks(s: Hub, e: Event)
    requires Shape(s) && Enabled(s, e) && Ordinary(e)
    ensures var s' := Step(s, e);
            forall c :: c in s'.calls && s'.calls[c].stage.GettingUrl? ==>
              c in s.calls && s'.calls[c].stage == s.calls[c].stage
  {
  }

  lemma OrdinaryHandlers(s: Hub, e: Event)
    requires Shape(s) && CallsJoined(s) && Enabled(s, e) && Ordinary(e) && Shape(Step(s, e))
    ensures var s' := Step(s, e); forall id :: id in s'.registry ==> s'.calls[s'.registry[id]].group.Some?
  {
    if e.Register? {
      assert ShapeOfCall(s, s.calls[e.call]);
    }
  }

  lemma OrdinaryKeepsGroups(s: Hub, e: Event)
    requires Shape(s) && CallsJoined(s) && Enabled(s, e) && Ordinary(e) && Shape(Step(s, e))
    ensures KeepsGroups(s, Step(s, e))
  {
    OrdinarySame(s, e);
    OrdinaryClients(s, e);
    OrdinaryAsks(s, e);
    OrdinaryHandlers(s, e);
  }

  lemma JoinOneGroup(s: Hub, c: nat, g: nat)
    requires Shape(s) && OneGroup(s) && At(s, c, Waiting) && g < |s.pool| && Shape(Join(s, c, g))
    requires s.pool[g].client == s.client[s.calls[c].entry]
    ensures OneGroup(Join(s, c, g))
  {
    var s' := Join(s, c, g);
    forall c' | c' in s'.calls && s'.calls[c'].group.Some?
      ensures s'.data[s'.calls[c'].entry].webhookId == Some(s'.pool[s'.calls[c'].group.value].webhookId)
    {
      assert c' != c ==> ShapeOfCall(s, s.calls[c']);
    }
    forall c' | c' in s'.calls && s'.calls[c'].stage.GettingUrl?
      ensures s'.calls[c'].stage.asked == s'.pool[s'.calls[c'].group.value].webhookId
    {
      assert c' != c ==> ShapeOfCall(s, s.calls[c']);
    }
  }

  lemma SettleOneGroup(s: Hub, c: nat, found: Option<Url>)
    requires Shape(s) && OneGroup(s) && AwaitsUrl(s, c) && Shape(Settle(s, c, found))
    ensures OneGroup(Settle(s, c, found))
  {
    SettleSame(s, c, found);
    KeepsOneGroup(s, Settle(s, c, found));
  }

  lemma ArriveOneGroup(s: Hub, c: nat, g: nat)
    requires Shape(s) && OneGroup(s) && At(s, c, Waiting) && g < |s.pool| && Shape(Join(s, c, g))
    requires s.pool[g].client == s.client[s.calls[c].entry] && Shape(Arrive(s, c, g))
    ensures OneGroup(Arrive(s, c, g))
  {
    var joined := Join(s, c, g);
    JoinOneGroup(s, c, g);
    if joined.data[s.calls[c].entry].url.Some? {
      SettleOneGroup(joined, c, joined.data[s.calls[c].entry].url);
    }
  }

  lemma ConsolidateMadeOnce(s: Hub, c: nat, skipped: set<nat>, minted: nat)
    requires Shape(s) && MadeOnce(s) && Enabled(s, Resolved(c, skipped, minted))
    requires !RemakesGroup(s, Resolved(c, skipped, minted))
    ensures MadeOnce(Consolidate(s, c, skipped, minted))
  {
  }

  lemma ConsolidateHoldIds(s: Hub, c: nat, skipped: set<nat>, minted: nat)
    requires Shape(s) && JoinedHoldIds(s) && Enabled(s, Resolved(c, skipped, minted))
    requires !RemakesGroup(s, Resolved(c, skipped, minted)) && Shape(Consolidate(s, c, skipped, minted))
    ensures JoinedHoldIds(Consolidate(s, c, skipped, minted))
  {
    var s', runner := Consolidate(s, c, skipped, minted), s.calls[c].entry;
    MembersShareClient(s, s.entries, runner, skipped);
    forall c' | c' in s'.calls && s'.calls[c'].group.Some?
      ensures s'.data[s'.calls[c'].entry].webhookId == Some(s'.pool[s'.calls[c'].group.value].webhookId)
    {
      assert ShapeOfCall(s, s.calls[c']);
      assert s.client[s.calls[c'].entry] != s.client[runner];
    }
  }

  lemma ConsolidateCalls(s: Hub, c: nat, skipped: set<nat>, minted: nat)
    requires Shape(s) && CallsJoined(s) && Enabled(s, Resolved(c, skipped, minted))
    requires Shape(Consolidate(s, c, skipped, minted))
    ensures CallsJoined(Consolidate(s, c, skipped, minted))
  {
    var s' := Consolidate(s, c, skipped, minted);
    forall c' | c' in s'.calls && s'.calls[c'].stage.GettingUrl?
      ensures s'.calls[c'].stage.asked == s'.pool[s'.calls[c'].group.value].webhookId
    {
      assert ShapeOfCall(s, s.calls[c']);
    }
  }

  lemma ResolvedOneGroup(s: Hub, c: nat, skipped: set<nat>, minted: nat)
    requires Shape(s) && OneGroup(s) && Enabled(s, Resolved(c, skipped, minted))
    requires !RemakesGroup(s, Resolved(c, skipped, minted)) && Shape(ResolvedStep(s, c, skipped, minted))
    ensures OneGroup(ResolvedStep(s, c, skipped, minted))
  {
    ConsolidatedJoinShape(s, c, skipped, minted);
    ConsolidateMadeOnce(s, c, skipped, minted);
    ConsolidateHoldIds(s, c, skipped, minted);
    ConsolidateCalls(s, c, skipped, minted);
    ArriveOneGroup(Consolidate(s, c, skipped, minted), c, |s.pool|);
  }

  lemma RemadeTwice(s: Hub, c: nat, skipped: set<nat>, minted: nat)
    requires Shape(s) && RemakesGroup(s, Resolved(c, skipped, minted))
    ensures !MadeOnce(ResolvedStep(s, c, skipped, minted))
  {
    var s', k := ResolvedStep(s, c, skipped, minted), s.client[s.calls[c].entry];
    var g :| 0 <= g < |s.pool| && s.pool[g].client == k;
    assert s'.pool[g].client == k && s'.pool[|s.pool|].client == k;
  }

  lemma JoinExistingOneGroup(s: Hub, c: nat)
    requires Shape(s) && OneGroup(s) && Enabled(s, JoinExisting(c)) && Shape(JoinExistingStep(s, c))
    ensures OneGroup(JoinExistingStep(s, c))
  {
    ExistingJoinShape(s, c);
    ArriveOneGroup(s, c, s.groups[s.client[s.calls[c].entry]]);
  }

  /** Each application has one group at most, and everybody who joined it holds its id, after a step as before it,
      unless the step makes a second one. */
  lemma OneGroupKeptIff(s: Hub, e: Event)
    requires Shape(s) && OneGroup(s) && Shape(Step(s, e))
    ensures OneGroup(Step(s, e)) <==> !RemakesGroup(s, e)
  {
    if e.Resolved? && Enabled(s, e) {
      if RemakesGroup(s, e) {
        RemadeTwice(s, e.call, e.skipped, e.minted);
      } else {
        ResolvedOneGroup(s, e.call, e.skipped, e.minted);
      }
    } else if e.JoinExisting? && Enabled(s, e) {
      JoinExistingOneGroup(s, e.call);
    } else if Enabled(s, e) {
      OrdinaryKeepsGroups(s, e);
      KeepsOneGroup(s, Step(s, e));
    }
  }

  /** In such a state no URL is stored beside another id and no traffic misses a member. */
  lemma OneGroupIsSafe(s: Hub, e: Event)
    requires Shape(s) && OneGroup(s)
    ensures !StoresStaleUrl(s, e) && !MissesMarks(s, e)
  {
    if e.Publish? && Enabled(s, e) {
      assert ShapeOfCall(s, s.calls[e.call]);
    } else if e.Traffic? && Enabled(s, e) {
      var h := s.calls[s.registry[e.id]];
      assert ShapeOfCall(s, h);
      var k := s.client[h.entry];
      assert k in s.groups ==> s.groups[k] == h.group.value;
    }
  }

  // ---------------------------------------------------------------- runs

  /** No group is made any more once a STOP callback has run. `setup` starts a call only while Home Assistant is
      running, so its call asks for the lock before any STOP callback does and gets it before them. */
  predicate NoGroupAfterStop(events: seq<Event>) {
    forall i, j :: 0 <= i < j < |events| && events[i].StopEnd? ==> !events[j].Resolved?
  }

  predicate NobodyStopped(events: seq<Event>) {
    forall i :: 0 <= i < |events| ==> !events[i].StopEnd?
  }

  ghost predicate AllAttached(s: Hub) {
    forall g :: 0 <= g < |s.pool| ==> Attached(s, g)
  }

  lemma ArriveAttached(s: Hub, c: nat, g: nat)
    requires Sound(s, c) && g < |s.pool| && s.pool[g].client == s.client[s.calls[c].entry] && AllAttached(s)
    ensures AllAttached(Arrive(s, c, g))
  {
    var s' := Arrive(s, c, g);
    assert s'.groups == s.groups && |s'.pool| == |s.pool|;
    assert forall h :: 0 <= h < |s.pool| ==> Attached(s, h) && s'.pool[h].client == s.pool[h].client;
  }

  lemma ResolvedAttached(s: Hub, c: nat, skipped: set<nat>, minted: nat)
    requires Shape(s) && Enabled(s, Resolved(c, skipped, minted)) && AllAttached(s)
    ensures AllAttached(ResolvedStep(s, c, skipped, minted))
  {
    var made := Consolidate(s, c, skipped, minted);
    forall h | 0 <= h < |made.pool|
      ensures Attached(made, h)
    {
      assert h < |s.pool| ==> Attached(s, h);
    }
    ArriveAttached(made, c, |s.pool|);
  }

  lemma OrdinaryAttached(s: Hub, e: Event)
    requires Shape(s) && Enabled(s, e) && AllAttached(s) && Ordinary(e) && !e.StopEnd?
    ensures AllAttached(Step(s, e))
  {
    var s' := Step(s, e);
    OrdinaryClients(s, e);
    assert s'.groups == s.groups;
    forall h | 0 <= h < |s'.pool|
      ensures Attached(s', h)
    {
      assert Attached(s, h);
    }
  }

  lemma AttachedKept(s: Hub, e: Event)
    requires Shape(s) && AllAttached(s) && !e.StopEnd?
    ensures AllAttached(Step(s, e))
  {
    if e.Resolved? && Enabled(s, e) {
      ResolvedAttached(s, e.call, e.skipped, e.minted);
    } else if e.JoinExisting? && Enabled(s, e) {
      ArriveAttached(s, e.call, s.groups[s.client[s.calls[e.call].entry]]);
    } else if Enabled(s, e) {
      OrdinaryAttached(s, e);
    }
  }

  /** Until the first STOP callback has run, every group made is in the dictionary. */
  lemma {:induction false} AttachedUntilStop(s: Hub, events: seq<Event>)
    requires Initial(s) && Core(s) && NobodyStopped(events)
    ensures AllAttached(Run(s, events))
  {
    if events != [] {
      AttachedUntilStop(s, events[..|events| - 1]);
      AttachedKept(Run(s, events[..|events| - 1]), events[|events| - 1]);
    }
  }

  lemma AttachedIsNotRemade(s: Hub, e: Event)
    requires Shape(s) && AllAttached(s)
    ensures !RemakesGroup(s, e)
  {
    if e.Resolved? && Enabled(s, e) {
      forall g | 0 <= g < |s.pool|
        ensures s.pool[g].client != s.client[s.calls[e.call].entry]
      {
        assert Attached(s, g);
      }
    }
  }

  lemma NotRemadeAtLast(s: Hub, events: seq<Event>)
    requires Initial(s) && Core(s) && events != [] && NoGroupAfterStop(events)
    ensures !RemakesGroup(Run(s, events[..|events| - 1]), events[|events| - 1])
  {
    var rest, e := events[..|events| - 1], events[|events| - 1];
    if e.Resolved? {
      assert NobodyStopped(rest);
      AttachedUntilStop(s, rest);
      AttachedIsNotRemade(Run(s, rest), e);
    }
  }

  /** After any run without a group made after a STOP callback, each application has one group at most, and everybody
      who joined it holds its id, even if it has left. */
  lemma {:induction false} OneGroupAfterRun(s: Hub, events: seq<Event>)
    requires Initial(s) && Core(s) && NoGroupAfterStop(events)
    ensures OneGroup(Run(s, events))
  {
    if events != [] {
      var rest, e := events[..|events| - 1], events[|events| - 1];
      OneGroupAfterRun(s, rest);
      NotRemadeAtLast(s, events);
      StepShape(Run(s, rest), e);
      OneGroupKeptIff(Run(s, rest), e);
    }
  }

  /** Such a run stores no stale URL and has no traffic that misses a member, early STOPs or not: in all its states
      stored URLs match the ids beside them and confirmed groups' members are marked. */
  lemma {:induction false} LifetimeIsSafe(s: Hub, events: seq<Event>)
    requires Initial(s) && Core(s) && NoGroupAfterStop(events)
    ensures StoresNothingStale(s, events) && MissesNothing(s, events)
    ensures CoherentThroughout(s, events) && MarkedThroughout(s, events)
  {
    if events != [] {
      var rest := events[..|events| - 1];
      LifetimeIsSafe(s, rest);
      OneGroupAfterRun(s, rest);
      OneGroupIsSafe(Run(s, rest), events[|events| - 1]);
    }
    CoherentRunIff(s, events);
    MarkedRunIff(s, events);
  }

  /** Everybody who joined a confirmed group is marked. */
  lemma ConfirmedGroupsAreMarked(s: Hub, events: seq<Event>, c: nat)
    requires Initial(s) && Core(s) && NoGroupAfterStop(events)
    requires c in Run(s, events).calls && Run(s, events).calls[c].group.Some?
    ensures var s' := Run(s, events);
            var call := s'.calls[c];
            && call.group.value < |s'.pool| && call.entry in s'.data
            && (s'.pool[call.group.value].confirmed ==> Marked(s'.data[call.entry]))
  {
    LifetimeIsSafe(s, events);
    MembersAreMarked(s, events, c);
  }

  /** Once a group is confirmed it stays so, and no setup issue is raised for it any more. */
  lemma NoIssueAfterConfirmation(s: Hub, events: seq<Event>, n: nat, g: nat, raised: nat)
    requires Initial(s) && Core(s) && NoGroupAfterStop(events) && n <= |events|
    requires ConfirmedAt(Run(s, events[..n]), g, raised)
    ensures ConfirmedAt(Run(s, events), g, raised)
  {
    LifetimeIsSafe(s, events);
    NoIssueAgain(s, events, n, g, raised);
  }

  /** What anybody stored as URL was made for the id stored beside it. */
  lemma StoredUrlsMatch(s: Hub, events: seq<Event>, e: nat)
    requires Initial(s) && Core(s) && NoGroupAfterStop(events) && e in Run(s, events).data
    ensures Coherent(Run(s, events).data[e])
  {
    LifetimeIsSafe(s, events);
  }

  /** Who joined holds the group's id, even after its STOP callback has run. */
  lemma JoinedHoldTheGroupsId(s: Hub, events: seq<Event>, c: nat)
    requires Initial(s) && Core(s) && NoGroupAfterStop(events)
    requires c in Run(s, events).calls && Run(s, events).calls[c].group.Some?
    ensures var s' := Run(s, events);
            var call := s'.calls[c];
            && call.group.value < |s'.pool| && call.entry in s'.data
            && s'.data[call.entry].webhookId == Some(s'.pool[call.group.value].webhookId)
  {
    OneGroupAfterRun(s, events);
    assert ShapeOfCall(Run(s, events), Run(s, events).calls[c]);
  }
}
