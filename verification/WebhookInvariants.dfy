/** What every step of the shared webhook keeps. */
module WebhookInvariants {
  import opened Bytes
  import opened WebhookConsolidation
  import opened WebhookGroups

  // ---------------------------------------------------------------- references

  lemma JoinShape(s: Hub, c: nat, g: nat)
    requires Shape(s) && g < |s.pool|
    requires At(s, c, Waiting) && s.lock.None? && s.pool[g].client == s.client[s.calls[c].entry]
    ensures Shape(Join(s, c, g))
  {
  }

  lemma ConsolidateShape(s: Hub, c: nat, skipped: set<nat>, minted: nat)
    requires Shape(s) && Enabled(s, Resolved(c, skipped, minted))
    ensures Shape(Consolidate(s, c, skipped, minted))
  {
  }

  /** Nothing is lost by changing one call and adding to the other parts what keeps them in shape. */
  lemma OneCallShape(s: Hub, s': Hub, c: nat)
    requires Shape(s) && c in s.calls && c in s'.calls && s'.calls == s.calls[c := s'.calls[c]]
    requires s'.client == s.client && s'.data.Keys == s.data.Keys && s'.entries == s.entries
    requires |s'.pool| == |s.pool| && forall g :: 0 <= g < |s.pool| ==> s'.pool[g].client == s.pool[g].client
    requires forall id :: id in s'.registry ==> s'.registry[id] in s.calls
    requires forall k :: k in s'.groups ==> k in s.groups && s'.groups[k] == s.groups[k]
    requires ShapeOfCall(s, s'.calls[c]) && s'.calls[c].entry == s.calls[c].entry
    requires s'.lock == s.lock && (s.calls[c].stage.Resolving? <==> s'.calls[c].stage.Resolving?)
    ensures Shape(s')
  {
    assert forall call :: ShapeOfCall(s, call) ==> ShapeOfCall(s', call);
  }

  lemma SettleShape(s: Hub, c: nat, found: Option<Url>)
    requires Shape(s) && AwaitsUrl(s, c)
    ensures Shape(Settle(s, c, found))
  {
    assert ShapeOfCall(s, s.calls[c]);
    OneCallShape(s, Settle(s, c, found), c);
  }

  lemma RegisterShape(s: Hub, c: nat)
    requires Shape(s) && Enabled(s, Register(c))
    ensures Shape(RegisterStep(s, c))
  {
    assert ShapeOfCall(s, s.calls[c]);
    OneCallShape(s, RegisterStep(s, c), c);
  }

  lemma TrafficShape(s: Hub, id: nat)
    requires Shape(s) && Enabled(s, Traffic(id))
    ensures Shape(TrafficStep(s, id))
  {
    var c := s.registry[id];
    assert ShapeOfCall(s, s.calls[c]);
    assert s.calls == s.calls[c := s.calls[c]];
    OneCallShape(s, TrafficStep(s, id), c);
  }

  lemma StopEndShape(s: Hub, c: nat)
    requires Shape(s) && Enabled(s, StopEnd(c))
    ensures Shape(StopEndStep(s, c))
  {
    assert ShapeOfCall(s, s.calls[c]);
    OneCallShape(s, StopEndStep(s, c), c);
  }

  lemma StopBeginShape(s: Hub, c: nat)
    requires Shape(s) && Enabled(s, StopBegin(c))
    ensures Shape(StopBeginStep(s, c))
  {
    assert ShapeOfCall(s, s.calls[c]);
    OneCallShape(s, StopBeginStep(s, c), c);
  }

  lemma StartShape(s: Hub, c: nat, entry: nat)
    requires Shape(s) && Enabled(s, Start(c, entry))
    ensures Shape(StartStep(s, c, entry))
  {
  }

  lemma ResolveShape(s: Hub, c: nat)
    requires Shape(s) && Enabled(s, Resolve(c))
    ensures Shape(ResolveStep(s, c))
  {
  }

  lemma AbandonShape(s: Hub, c: nat)
    requires Shape(s) && Enabled(s, Abandon(c))
    ensures Shape(AbandonStep(s, c))
  {
  }

  // ---------------------------------------------------------------- counting

  /** The same joins on the same counted groups. */
  ghost predicate SameJoins(s: Hub, s': Hub) {
    && (forall c :: c in s'.calls && s'.calls[c].group.Some? ==> c in s.calls)
    && s.calls.Keys <= s'.calls.Keys
    && (forall c :: c in s.calls ==>
          s'.calls[c].group == s.calls[c].group && Listens(s'.calls[c]) == Listens(s.calls[c]))
    && |s'.pool| == |s.pool| && s'.groups == s.groups
    && (forall g :: 0 <= g < |s.pool| ==>
          s'.pool[g].client == s.pool[g].client && s'.pool[g].refcount == s.pool[g].refcount)
  }

  lemma SameJoinsCounted(s: Hub, s': Hub)
    requires Counted(s) && SameJoins(s, s')
    ensures Counted(s')
  {
    forall g | 0 <= g < |s'.pool|
      ensures s'.pool[g].refcount == |Live(s', g)| && (Attached(s', g) <==> Live(s', g) != {})
    {
      assert Live(s', g) == Live(s, g);
      assert Attached(s', g) <==> Attached(s, g);
    }
  }

  lemma JoinCounted(s: Hub, c: nat, g: nat)
    requires c in s.calls && s.calls[c].entry in s.data && s.calls[c].group.None?
    requires g < |s.pool| && Attached(s, g)
    requires forall g' :: 0 <= g' < |s.pool| ==>
               && s.pool[g'].refcount == |Live(s, g')|
               && (g' != g ==> (Attached(s, g') <==> Live(s, g') != {}))
    ensures Counted(Join(s, c, g))
  {
    var s' := Join(s, c, g);
    forall g' | 0 <= g' < |s'.pool|
      ensures s'.pool[g'].refcount == |Live(s', g')| && (Attached(s', g') <==> Live(s', g') != {})
    {
      assert Attached(s', g') <==> Attached(s, g');
      assert c !in Live(s, g');
      assert Live(s', g') == if g' == g then Live(s, g') + {c} else Live(s, g');
    }
  }

  lemma ConsolidateLive(s: Hub, c: nat, skipped: set<nat>, minted: nat, g: nat)
    requires Shape(s) && Enabled(s, Resolved(c, skipped, minted))
    ensures Live(Consolidate(s, c, skipped, minted), g) == Live(s, g)
    ensures g >= |s.pool| ==> Live(s, g) == {}
  {
    assert forall c' :: c' in s.calls ==> ShapeOfCall(s, s.calls[c']);
  }

  lemma ConsolidateAttached(s: Hub, c: nat, skipped: set<nat>, minted: nat, g: nat)
    requires Shape(s) && Enabled(s, Resolved(c, skipped, minted)) && g <= |s.pool|
    ensures Attached(Consolidate(s, c, skipped, minted), g) <==> g == |s.pool| || Attached(s, g)
  {
  }

  lemma ConsolidateCounts(s: Hub, c: nat, skipped: set<nat>, minted: nat)
    requires Shape(s) && Counted(s) && Enabled(s, Resolved(c, skipped, minted))
    ensures var s' := Consolidate(s, c, skipped, minted);
            forall g :: 0 <= g < |s'.pool| ==>
              && s'.pool[g].refcount == |Live(s', g)|
              && (g != |s.pool| ==> (Attached(s', g) <==> Live(s', g) != {}))
    ensures Attached(Consolidate(s, c, skipped, minted), |s.pool|)
  {
    var s' := Consolidate(s, c, skipped, minted);
    ConsolidateAttached(s, c, skipped, minted, |s.pool|);
    forall g | 0 <= g < |s'.pool|
      ensures s'.pool[g].refcount == |Live(s', g)| && (g != |s.pool| ==> (Attached(s', g) <==> Live(s', g) != {}))
    {
      ConsolidateLive(s, c, skipped, minted, g);
      ConsolidateAttached(s, c, skipped, minted, g);
    }
  }

  lemma ConsolidateCounted(s: Hub, c: nat, skipped: set<nat>, minted: nat)
    requires Shape(s) && Counted(s) && Enabled(s, Resolved(c, skipped, minted))
    ensures Counted(Join(Consolidate(s, c, skipped, minted), c, |s.pool|))
  {
    ConsolidateCounts(s, c, skipped, minted);
    JoinCounted(Consolidate(s, c, skipped, minted), c, |s.pool|);
  }

  lemma StopEndCounted(s: Hub, c: nat)
    requires Shape(s) && Counted(s) && Enabled(s, StopEnd(c))
    ensures Counted(StopEndStep(s, c))
  {
    var s' := StopEndStep(s, c);
    var g := s.calls[c].group.value;
    assert c in Live(s, g);
    assert Attached(s, g) && s.groups[s.client[s.calls[c].entry]] == g;
    forall g' | 0 <= g' < |s'.pool|
      ensures s'.pool[g'].refcount == |Live(s', g')| && (Attached(s', g') <==> Live(s', g') != {})
    {
      assert Live(s', g') == if g' == g then Live(s, g') - {c} else Live(s, g');
      assert g' != g ==> (Attached(s', g') <==> Attached(s, g'));
    }
  }

  // ---------------------------------------------------------------- ids

  /** A counted call's group is in the dictionary. */
  lemma LiveIsAttached(s: Hub, c: nat)
    requires Shape(s) && Counted(s) && c in s.calls && Listens(s.calls[c])
    ensures s.calls[c].group.Some? && Attached(s, s.calls[c].group.value)
    ensures s.groups[s.client[s.calls[c].entry]] == s.calls[c].group.value
  {
    assert ShapeOfCall(s, s.calls[c]);
    assert c in Live(s, s.calls[c].group.value);
  }

  lemma MembersShareClient(s: Hub, entries: seq<nat>, runner: nat, skipped: set<nat>)
    requires runner in s.client
    ensures forall e :: e in Members(s, entries, runner, skipped) ==> e in s.client && s.client[e] == s.client[runner]
  {
  }

  /** The members, and so the choice made for them, are the same whichever member runs the resolution, as long as
      neither is one whose lookup fails. */
  lemma {:induction false} RunnerDoesNotMatter(s: Hub, entries: seq<nat>, runner: nat, other: nat, skipped: set<nat>)
    requires runner in s.client && other in s.client && s.client[runner] == s.client[other]
    requires runner !in skipped && other !in skipped
    ensures Members(s, entries, runner, skipped) == Members(s, entries, other, skipped)
  {
    if entries != [] {
      RunnerDoesNotMatter(s, entries[1..], runner, other, skipped);
    }
  }

  lemma JoinIds(s: Hub, c: nat, g: nat)
    requires Shape(s) && IdsAgree(s) && At(s, c, Waiting) && s.lock.None?
    requires g < |s.pool| && Attached(s, g) && s.pool[g].client == s.client[s.calls[c].entry]
    requires Shape(Join(s, c, g))
    ensures IdsAgree(Join(s, c, g))
  {
    JoinMembersIds(s, c, g);
    JoinOtherIds(s, c, g);
  }

  lemma JoinOtherIds(s: Hub, c: nat, g: nat)
    requires Shape(s) && JoinedHaveIds(s) && StopsHoldIds(s)
    requires At(s, c, Waiting) && g < |s.pool| && Shape(Join(s, c, g))
    ensures JoinedHaveIds(Join(s, c, g)) && StopsHoldIds(Join(s, c, g))
  {
  }

  lemma JoinMembersIds(s: Hub, c: nat, g: nat)
    requires Shape(s) && MembersHoldIds(s) && At(s, c, Waiting)
    requires g < |s.pool| && Attached(s, g) && s.pool[g].client == s.client[s.calls[c].entry]
    requires Shape(Join(s, c, g))
    ensures MembersHoldIds(Join(s, c, g))
  {
    var s' := Join(s, c, g);
    forall c' | c' in s'.calls && s'.calls[c'].group.Some? && Attached(s', s'.calls[c'].group.value)
      ensures s'.data[s'.calls[c'].entry].webhookId == Some(s'.pool[s'.calls[c'].group.value].webhookId)
    {
      if c' != c {
        assert ShapeOfCall(s, s.calls[c']);
        assert Attached(s, s.calls[c'].group.value);
      }
    }
  }

  lemma ConsolidateIds(s: Hub, c: nat, skipped: set<nat>, minted: nat)
    requires Shape(s) && IdsAgree(s) && Enabled(s, Resolved(c, skipped, minted))
    requires Shape(Consolidate(s, c, skipped, minted))
    ensures IdsAgree(Consolidate(s, c, skipped, minted))
  {
    ConsolidateMembersIds(s, c, skipped, minted);
    ConsolidateOtherIds(s, c, skipped, minted);
  }

  lemma ConsolidateOtherIds(s: Hub, c: nat, skipped: set<nat>, minted: nat)
    requires Shape(s) && JoinedHaveIds(s) && StopsHoldIds(s) && Enabled(s, Resolved(c, skipped, minted))
    requires Shape(Consolidate(s, c, skipped, minted))
    ensures JoinedHaveIds(Consolidate(s, c, skipped, minted)) && StopsHoldIds(Consolidate(s, c, skipped, minted))
  {
    assert forall c' :: c' in s.calls ==> ShapeOfCall(s, s.calls[c']);
  }

  lemma ConsolidateMembersIds(s: Hub, c: nat, skipped: set<nat>, minted: nat)
    requires Shape(s) && MembersHoldIds(s) && Enabled(s, Resolved(c, skipped, minted))
    requires Shape(Consolidate(s, c, skipped, minted))
    ensures MembersHoldIds(Consolidate(s, c, skipped, minted))
  {
    var s' := Consolidate(s, c, skipped, minted);
    var runner := s.calls[c].entry;
    MembersShareClient(s, s.entries, runner, skipped);
    forall c' | c' in s'.calls && s'.calls[c'].group.Some? && Attached(s', s'.calls[c'].group.value)
      ensures s'.data[s'.calls[c'].entry].webhookId == Some(s'.pool[s'.calls[c'].group.value].webhookId)
    {
      assert ShapeOfCall(s, s.calls[c']);
      assert s.client[s.calls[c'].entry] != s.client[runner];
    }
  }

  /** Ids stay as they are, and no group comes into the dictionary. */
  ghost predicate SameIds(s: Hub, s': Hub) {
    && s'.data.Keys == s.data.Keys
    && (forall e :: e in s.data ==> s'.data[e].webhookId == s.data[e].webhookId)
    && |s'.pool| == |s.pool|
    && (forall g :: 0 <= g < |s.pool| ==> s'.pool[g].webhookId == s.pool[g].webhookId)
    && (forall g :: 0 <= g < |s.pool| && Attached(s', g) ==> Attached(s, g))
    && (forall c :: c in s'.calls && s'.calls[c].group.Some? ==>
          c in s.calls && s'.calls[c].group == s.calls[c].group && s'.calls[c].entry == s.calls[c].entry)
    && (forall c :: c in s'.calls && s'.calls[c].stop.Stopping? ==>
          c in s.calls && (s'.calls[c].stop == s.calls[c].stop || s.calls[c].stop.Listening?))
  }

  lemma SameIdsAgree(s: Hub, s': Hub)
    requires Shape(s) && Counted(s) && IdsAgree(s) && Shape(s') && SameIds(s, s')
    requires forall c :: c in s'.calls && c in s.calls && s'.calls[c].stop.Stopping? && s.calls[c].stop.Listening? ==>
               s.data[s.calls[c].entry].webhookId == Some(s'.calls[c].stop.webhookId)
    ensures IdsAgree(s')
  {
    forall c | c in s'.calls && s'.calls[c].stop.Stopping?
      ensures s'.calls[c].stop.webhookId == s'.pool[s'.calls[c].group.value].webhookId
    {
      assert ShapeOfCall(s', s'.calls[c]) && ShapeOfCall(s, s.calls[c]);
      if s.calls[c].stop.Listening? {
        LiveIsAttached(s, c);
      }
    }
  }

  // ---------------------------------------------------------------- every step

  /** What holds in every state, however the STOP callbacks fall. */
  ghost predicate Core(s: Hub) {
    Shape(s) && Counted(s) && IdsAgree(s) && Once(s) && StatusesTrue(s)
  }

  lemma SameCore(s: Hub, s': Hub)
    requires Core(s) && Shape(s') && SameJoins(s, s') && SameIds(s, s')
    requires forall c :: c in s'.calls && c in s.calls && s'.calls[c].stop.Stopping? && s.calls[c].stop.Listening? ==>
               s.data[s.calls[c].entry].webhookId == Some(s'.calls[c].stop.webhookId)
    requires Once(s') && StatusesTrue(s')
    ensures Core(s')
  {
    SameJoinsCounted(s, s');
    SameIdsAgree(s, s');
  }

  lemma StartSame(s: Hub, c: nat, entry: nat)
    requires Shape(s) && Enabled(s, Start(c, entry))
    ensures SameIds(s, StartStep(s, c, entry)) && SameJoins(s, StartStep(s, c, entry))
  {
  }

  lemma StartOnce(s: Hub, c: nat, entry: nat)
    requires Shape(s) && Once(s) && StatusesTrue(s) && Enabled(s, Start(c, entry)) && Shape(StartStep(s, c, entry))
    ensures Once(StartStep(s, c, entry)) && StatusesTrue(StartStep(s, c, entry))
  {
  }

  lemma StartCore(s: Hub, c: nat, entry: nat)
    requires Core(s) && Enabled(s, Start(c, entry))
    ensures Core(StartStep(s, c, entry))
  {
    StartShape(s, c, entry);
    StartSame(s, c, entry);
    StartOnce(s, c, entry);
    SameCore(s, StartStep(s, c, entry));
  }

  lemma ResolveSame(s: Hub, c: nat)
    requires Shape(s) && Enabled(s, Resolve(c))
    ensures SameIds(s, ResolveStep(s, c)) && SameJoins(s, ResolveStep(s, c))
  {
  }

  lemma ResolveOnce(s: Hub, c: nat)
    requires Shape(s) && Once(s) && StatusesTrue(s) && Enabled(s, Resolve(c)) && Shape(ResolveStep(s, c))
    ensures Once(ResolveStep(s, c)) && StatusesTrue(ResolveStep(s, c))
  {
  }

  lemma ResolveCore(s: Hub, c: nat)
    requires Core(s) && Enabled(s, Resolve(c))
    ensures Core(ResolveStep(s, c))
  {
    ResolveShape(s, c);
    ResolveSame(s, c);
    ResolveOnce(s, c);
    SameCore(s, ResolveStep(s, c));
  }

  lemma AbandonSame(s: Hub, c: nat)
    requires Shape(s) && Enabled(s, Abandon(c))
    ensures SameIds(s, AbandonStep(s, c)) && SameJoins(s, AbandonStep(s, c))
  {
  }

  lemma AbandonOnce(s: Hub, c: nat)
    requires Shape(s) && Once(s) && StatusesTrue(s) && Enabled(s, Abandon(c)) && Shape(AbandonStep(s, c))
    ensures Once(AbandonStep(s, c)) && StatusesTrue(AbandonStep(s, c))
  {
  }

  lemma AbandonCore(s: Hub, c: nat)
    requires Core(s) && Enabled(s, Abandon(c))
    ensures Core(AbandonStep(s, c))
  {
    AbandonShape(s, c);
    AbandonSame(s, c);
    AbandonOnce(s, c);
    SameCore(s, AbandonStep(s, c));
  }

  lemma SettleSameIds(s: Hub, c: nat, found: Option<Url>)
    requires Shape(s) && AwaitsUrl(s, c)
    ensures SameIds(s, Settle(s, c, found))
  {
  }

  lemma SettleSameJoins(s: Hub, c: nat, found: Option<Url>)
    requires Shape(s) && AwaitsUrl(s, c)
    ensures SameJoins(s, Settle(s, c, found))
  {
  }

  lemma SettleSame(s: Hub, c: nat, found: Option<Url>)
    requires Shape(s) && AwaitsUrl(s, c)
    ensures SameIds(s, Settle(s, c, found)) && SameJoins(s, Settle(s, c, found))
  {
    SettleSameIds(s, c, found);
    SettleSameJoins(s, c, found);
  }

  lemma SettleOnce(s: Hub, c: nat, found: Option<Url>)
    requires Shape(s) && Once(s) && StatusesTrue(s) && AwaitsUrl(s, c) && Shape(Settle(s, c, found))
    ensures Once(Settle(s, c, found)) && StatusesTrue(Settle(s, c, found))
  {
    assert ShapeOfCall(s, s.calls[c]);
  }

  lemma SettleCore(s: Hub, c: nat, found: Option<Url>)
    requires Core(s) && AwaitsUrl(s, c)
    ensures Core(Settle(s, c, found))
  {
    SettleShape(s, c, found);
    SettleSame(s, c, found);
    SettleOnce(s, c, found);
    SameCore(s, Settle(s, c, found));
  }

  lemma RegisterSameIds(s: Hub, c: nat)
    requires Shape(s) && Enabled(s, Register(c))
    ensures SameIds(s, RegisterStep(s, c))
  {
  }

  lemma RegisterSameJoins(s: Hub, c: nat)
    requires Shape(s) && Enabled(s, Register(c))
    ensures SameJoins(s, RegisterStep(s, c))
  {
  }

  lemma RegisterSame(s: Hub, c: nat)
    requires Shape(s) && Enabled(s, Register(c))
    ensures SameIds(s, RegisterStep(s, c)) && SameJoins(s, RegisterStep(s, c))
  {
    RegisterSameIds(s, c);
    RegisterSameJoins(s, c);
  }

  lemma RegisterOnce(s: Hub, c: nat)
    requires Shape(s) && Once(s) && StatusesTrue(s) && Enabled(s, Register(c)) && Shape(RegisterStep(s, c))
    ensures Once(RegisterStep(s, c)) && StatusesTrue(RegisterStep(s, c))
  {
    assert ShapeOfCall(s, s.calls[c]);
  }

  lemma RegisterCore(s: Hub, c: nat)
    requires Core(s) && Enabled(s, Register(c))
    ensures Core(RegisterStep(s, c))
  {
    RegisterShape(s, c);
    RegisterSame(s, c);
    RegisterOnce(s, c);
    SameCore(s, RegisterStep(s, c));
  }

  lemma TrafficSameIds(s: Hub, id: nat)
    requires Shape(s) && Enabled(s, Traffic(id))
    ensures SameIds(s, TrafficStep(s, id))
  {
  }

  lemma TrafficSameJoins(s: Hub, id: nat)
    requires Shape(s) && Enabled(s, Traffic(id))
    ensures SameJoins(s, TrafficStep(s, id))
  {
  }

  lemma TrafficSame(s: Hub, id: nat)
    requires Shape(s) && Enabled(s, Traffic(id))
    ensures SameIds(s, TrafficStep(s, id)) && SameJoins(s, TrafficStep(s, id))
  {
    TrafficSameIds(s, id);
    TrafficSameJoins(s, id);
  }

  lemma TrafficOnce(s: Hub, id: nat)
    requires Shape(s) && Once(s) && StatusesTrue(s) && Enabled(s, Traffic(id)) && Shape(TrafficStep(s, id))
    ensures Once(TrafficStep(s, id)) && StatusesTrue(TrafficStep(s, id))
  {
  }

  lemma TrafficCore(s: Hub, id: nat)
    requires Core(s) && Enabled(s, Traffic(id))
    ensures Core(TrafficStep(s, id))
  {
    TrafficShape(s, id);
    TrafficSame(s, id);
    TrafficOnce(s, id);
    SameCore(s, TrafficStep(s, id));
  }

  lemma StopBeginSameIds(s: Hub, c: nat)
    requires Shape(s) && Enabled(s, StopBegin(c))
    ensures SameIds(s, StopBeginStep(s, c))
  {
  }

  lemma StopBeginSameJoins(s: Hub, c: nat)
    requires Shape(s) && Enabled(s, StopBegin(c))
    ensures SameJoins(s, StopBeginStep(s, c))
  {
  }

  lemma StopBeginSame(s: Hub, c: nat)
    requires Shape(s) && Enabled(s, StopBegin(c))
    ensures SameIds(s, StopBeginStep(s, c)) && SameJoins(s, StopBeginStep(s, c))
  {
    StopBeginSameIds(s, c);
    StopBeginSameJoins(s, c);
  }

  lemma StopBeginOnce(s: Hub, c: nat)
    requires Shape(s) && Once(s) && StatusesTrue(s) && Enabled(s, StopBegin(c)) && Shape(StopBeginStep(s, c))
    ensures Once(StopBeginStep(s, c)) && StatusesTrue(StopBeginStep(s, c))
  {
  }

  lemma StopBeginCore(s: Hub, c: nat)
    requires Core(s) && Enabled(s, StopBegin(c))
    ensures Core(StopBeginStep(s, c))
  {
    StopBeginShape(s, c);
    StopBeginSame(s, c);
    StopBeginOnce(s, c);
    StopBeginId(s, c);
    SameCore(s, StopBeginStep(s, c));
  }

  lemma StopBeginId(s: Hub, c: nat)
    requires Shape(s) && Counted(s) && IdsAgree(s) && Enabled(s, StopBegin(c))
    ensures s.data[s.calls[c].entry].webhookId == Some(StopBeginStep(s, c).calls[c].stop.webhookId)
  {
    LiveIsAttached(s, c);
  }

  lemma StopEndSame(s: Hub, c: nat)
    requires Shape(s) && Enabled(s, StopEnd(c))
    ensures SameIds(s, StopEndStep(s, c))
  {
    assert ShapeOfCall(s, s.calls[c]);
  }

  lemma StopEndOnce(s: Hub, c: nat)
    requires Shape(s) && Once(s) && StatusesTrue(s) && Enabled(s, StopEnd(c)) && Shape(StopEndStep(s, c))
    ensures Once(StopEndStep(s, c)) && StatusesTrue(StopEndStep(s, c))
  {
    assert ShapeOfCall(s, s.calls[c]);
  }

  lemma StopEndCore(s: Hub, c: nat)
    requires Core(s) && Enabled(s, StopEnd(c))
    ensures Core(StopEndStep(s, c))
  {
    StopEndShape(s, c);
    StopEndSame(s, c);
    StopEndOnce(s, c);
    StopEndCounted(s, c);
    SameIdsAgree(s, StopEndStep(s, c));
  }

  lemma JoinOnce(s: Hub, c: nat, g: nat)
    requires Shape(s) && Once(s) && StatusesTrue(s) && At(s, c, Waiting) && g < |s.pool|
    requires Shape(Join(s, c, g))
    ensures Once(Join(s, c, g)) && StatusesTrue(Join(s, c, g))
  {
  }

  lemma JoinCore(s: Hub, c: nat, g: nat)
    requires Core(s) && Enabled(s, JoinExisting(c)) && g == s.groups[s.client[s.calls[c].entry]]
    ensures Core(Join(s, c, g))
  {
    assert ShapeOfCall(s, s.calls[c]);
    JoinShape(s, c, g);
    JoinCounted(s, c, g);
    JoinIds(s, c, g);
    JoinOnce(s, c, g);
  }

  /** What has joined either rests or, with a URL stored, settles at once. */
  lemma ArriveCore(s: Hub, c: nat, g: nat)
    requires Sound(s, c) && g < |s.pool| && s.pool[g].client == s.client[s.calls[c].entry]
    requires Core(Join(s, c, g))
    ensures Core(Arrive(s, c, g))
  {
    var joined := Join(s, c, g);
    var url := joined.data[s.calls[c].entry].url;
    if url.Some? {
      SettleCore(joined, c, url);
    }
  }

  lemma JoinExistingCore(s: Hub, c: nat)
    requires Core(s) && Enabled(s, JoinExisting(c))
    ensures Core(JoinExistingStep(s, c))
  {
    var g := s.groups[s.client[s.calls[c].entry]];
    JoinCore(s, c, g);
    ArriveCore(s, c, g);
  }

  lemma ResolvedCore(s: Hub, c: nat, skipped: set<nat>, minted: nat)
    requires Core(s) && Enabled(s, Resolved(c, skipped, minted))
    ensures Core(ResolvedStep(s, c, skipped, minted))
  {
    var s' := Consolidate(s, c, skipped, minted);
    ConsolidateShape(s, c, skipped, minted);
    JoinShape(s', c, |s.pool|);
    ConsolidateCounted(s, c, skipped, minted);
    ConsolidateIds(s, c, skipped, minted);
    JoinIds(s', c, |s.pool|);
    ConsolidateOnce(s, c, skipped, minted);
    ConsolidateStatuses(s, c, skipped, minted);
    JoinOnce(s', c, |s.pool|);
    ArriveCore(s', c, |s.pool|);
  }

  lemma ConsolidateStatuses(s: Hub, c: nat, skipped: set<nat>, minted: nat)
    requires Shape(s) && StatusesTrue(s) && Enabled(s, Resolved(c, skipped, minted))
    ensures StatusesTrue(Consolidate(s, c, skipped, minted))
  {
  }

  lemma ConsolidateOnce(s: Hub, c: nat, skipped: set<nat>, minted: nat)
    requires Shape(s) && Once(s) && Enabled(s, Resolved(c, skipped, minted))
    requires Shape(Consolidate(s, c, skipped, minted))
    ensures Once(Consolidate(s, c, skipped, minted))
  {
    ConsolidateOncePerGroup(s, c, skipped, minted);
    forall c' | c' in s.calls && s.calls[c'].stage == Finished(true)
      ensures s.calls[c'].group.Some? && s.calls[c'].group.value < |s.pool|
    {
      assert ShapeOfCall(s, s.calls[c']);
    }
  }

  lemma ConsolidateOncePerGroup(s: Hub, c: nat, skipped: set<nat>, minted: nat)
    requires Sound(s, c) && Listed(s) && OncePerGroup(s)
    ensures OncePerGroup(Consolidate(s, c, skipped, minted))
  {
  }

  lemma CoreStep(s: Hub, e: Event)
    requires Core(s)
    ensures Core(Step(s, e))
  {
    if Enabled(s, e) {
      match e
      case Start(c, entry) => StartCore(s, c, entry);
      case Resolve(c) => ResolveCore(s, c);
      case Resolved(c, skipped, minted) => ResolvedCore(s, c, skipped, minted);
      case JoinExisting(c) => JoinExistingCore(s, c);
      case Publish(c, source) => SettleCore(s, c, UrlFound(s, c, source));
      case Register(c) => RegisterCore(s, c);
      case Traffic(id) => TrafficCore(s, id);
      case StopBegin(c) => StopBeginCore(s, c);
      case StopEnd(c) => StopEndCore(s, c);
      case Abandon(c) => AbandonCore(s, c);
    }
  }
}
