/** The shared webhook's promises, stated for every run from stored data alone. */
module WebhookPromises {
  import opened Bytes
  import opened WebhookConsolidation
  import opened WebhookGroups
  import opened WebhookInvariants
  import opened WebhookSafety

  /** After any run, a group's count is the number of joins whose STOP callback has not undone them, and the
      group is in the dictionary exactly while there is one. */
  lemma CountIsJoins(s: Hub, events: seq<Event>, g: nat)
    requires Core(s) && g < |Run(s, events).pool|
    ensures var s' := Run(s, events);
            s'.pool[g].refcount == |Live(s', g)| && (Attached(s', g) <==> s'.pool[g].refcount > 0)
  {
  }

  /** A group's webhook is registered once at most, exactly once when some member ran to the end;
      its setup issue is raised once at most. */
  lemma RegisteredAndRaisedOnce(s: Hub, events: seq<Event>, c: nat, g: nat)
    requires Core(s) && g < |Run(s, events).pool|
    ensures var s' := Run(s, events);
            && s'.pool[g].registrations <= 1 && s'.pool[g].raised <= 1
            && (c in s'.calls && s'.calls[c].group == Some(g) && s'.calls[c].stage == Finished(true) ==>
                  s'.pool[g].registrations == 1)
  {
  }

  /** Whoever has joined and not been undone holds its group's id. */
  lemma MembersHoldTheGroupsId(s: Hub, events: seq<Event>, c: nat)
    requires Core(s) && c in Run(s, events).calls && Listens(Run(s, events).calls[c])
    ensures var s' := Run(s, events);
            var call := s'.calls[c];
            && call.group.Some? && call.group.value < |s'.pool| && call.entry in s'.data
            && s'.data[call.entry].webhookId == Some(s'.pool[call.group.value].webhookId)
  {
    var s' := Run(s, events);
    LiveIsAttached(s', c);
    assert ShapeOfCall(s', s'.calls[c]);
  }

  lemma ArriveKeepsWebhooks(s: Hub, c: nat, g: nat)
    requires Sound(s, c) && g < |s.pool| && s.pool[g].client == s.client[s.calls[c].entry]
    ensures Arrive(s, c, g).registry == s.registry
  {
  }

  lemma ResolvedKeepsWebhooks(s: Hub, c: nat, skipped: set<nat>, minted: nat)
    requires Sound(s, c) && s.calls[c].stage.Resolving? && Listed(s)
    ensures ResolvedStep(s, c, skipped, minted).registry == s.registry
  {
    ArriveKeepsWebhooks(Consolidate(s, c, skipped, minted), c, |s.pool|);
  }

  lemma OthersKeepWebhooks(s: Hub, e: Event)
    requires Shape(s) && Enabled(s, e) && !e.StopEnd?
    ensures s.registry.Keys <= Step(s, e).registry.Keys
  {
    if e.JoinExisting? {
      ArriveKeepsWebhooks(s, e.call, s.groups[s.client[s.calls[e.call].entry]]);
    } else if e.Resolved? {
      ResolvedKeepsWebhooks(s, e.call, e.skipped, e.minted);
    }
  }

  lemma LastLeaves(s: Hub, c: nat)
    requires Shape(s) && Counted(s) && IdsAgree(s) && Enabled(s, StopEnd(c))
    requires !(s.registry.Keys <= StopEndStep(s, c).registry.Keys)
    ensures var g := s.calls[c].group;
            && g.Some? && g.value < |s.pool| && s.pool[g.value].refcount == 1 && Live(s, g.value) == {c}
            && s.registry.Keys - {s.pool[g.value].webhookId} <= StopEndStep(s, c).registry.Keys
  {
    StopFindsItsGroup(s, c);
    assert ShapeOfCall(s, s.calls[c]);
    var g := s.calls[c].group.value;
    assert c in Live(s, g);
    assert s.pool[g].refcount == |Live(s, g)| == 1;
    OneElement(Live(s, g), c);
  }

  /** A registered webhook goes away only with the last join of the group whose id it is. */
  lemma OnlyTheLastUnregisters(s: Hub, e: Event, id: nat)
    requires Core(s) && id in s.registry && id !in Step(s, e).registry
    ensures e.StopEnd? && Enabled(s, e)
    ensures var g := s.calls[e.call].group;
            && g.Some? && g.value < |s.pool| && s.pool[g.value].webhookId == id
            && s.pool[g.value].refcount == 1 && Live(s, g.value) == {e.call}
  {
    if Enabled(s, e) {
      if e.StopEnd? {
        LastLeaves(s, e.call);
      } else {
        OthersKeepWebhooks(s, e);
      }
    }
  }

  lemma OneElement(s: set<nat>, x: nat)
    requires |s| == 1 && x in s
    ensures s == {x}
  {
    assert |s - {x}| == 0;
  }
}
