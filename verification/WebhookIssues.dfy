/** The setup issue of each application: when it is raised, when it is closed, and that it is open in between. */
module WebhookIssues {
  import opened Bytes
  import opened WebhookConsolidation
  import opened WebhookGroups
  import opened WebhookInvariants
  import opened WebhookSafety

  // ---------------------------------------------------------------- traffic

  /** Traffic that reaches an entry of the application before that entry has heard any. */
  predicate FirstTraffic(s: Hub, e: Event, client: nat)
    requires Shape(s)
  {
    && e.Traffic? && e.id in s.registry
    && var entry := s.calls[s.registry[e.id]].entry;
       assert ShapeOfCall(s, s.calls[s.registry[e.id]]);
       s.client[entry] == client && s.data[entry].status.None?
  }

  /** The first traffic an entry hears closes its application's issue and no other, marks the entries with its id that
      have no status and no others, and confirms the application's group; any other traffic changes nothing. */
  lemma TrafficEffects(s: Hub, id: nat)
    requires Shape(s) && id in s.registry
    ensures var s', entry := Step(s, Traffic(id)), s.calls[s.registry[id]].entry;
            && entry in s.data && entry in s.client
            && (s.data[entry].status.Some? ==> s' == s)
            && (s.data[entry].status.None? ==>
                  && s.client[entry] !in s'.issues
                  && (forall k :: k != s.client[entry] ==> (k in s'.issues <==> k in s.issues))
                  && s'.data.Keys == s.data.Keys
                  && (forall m :: m in s.data ==>
                        if s.data[m].webhookId == s.data[entry].webhookId && s.data[m].status.None?
                        then s'.data[m] == s.data[m].(status := Some(true)) else s'.data[m] == s.data[m])
                  && (forall g :: 0 <= g < |s.pool| ==>
                        if s.client[entry] in s.groups && s.groups[s.client[entry]] == g
                        then s'.pool[g] == s.pool[g].(confirmed := true) else s'.pool[g] == s.pool[g])
                  && |s'.pool| == |s.pool| && s'.groups == s.groups && s'.registry == s.registry && s'.calls == s.calls)
  {
    assert ShapeOfCall(s, s.calls[s.registry[id]]);
    var entry := s.calls[s.registry[id]].entry;
    if s.data[entry].status.Some? {
      assert TrafficStep(s, id).data == s.data;
    }
  }

  // ---------------------------------------------------------------- when an issue is raised

  /** A step after which some group of the application has had its issue raised once more. */
  ghost predicate Raises(s: Hub, e: Event, client: nat)
    requires Shape(s)
  {
    var s' := Step(s, e);
    exists g :: 0 <= g < |s'.pool| && s'.pool[g].client == client
      && s'.pool[g].raised > (if g < |s.pool| then s.pool[g].raised else 0)
  }

  lemma SettleRaisesIff(s: Hub, c: nat, found: Option<Url>, g: nat)
    requires Sound(s, c) && AwaitsUrl(s, c) && g < |s.pool|
    ensures var s', h := Settle(s, c, found), s.calls[c].group.value;
            && |s'.pool| == |s.pool| && s'.pool[g].client == s.pool[g].client
            && (s'.pool[g].raised > s.pool[g].raised
                <==> g == h && found.Some? && s.data[s.calls[c].entry].status.None? && !s.pool[h].issueRaised)
            && s'.issues == s.issues
                 + if found.Some? && s.data[s.calls[c].entry].status.None? && !s.pool[h].issueRaised
                   then {s.pool[h].client} else {}
  {
  }

  /** A call has a URL to show, its entry has heard no traffic, and its group's issue was not raised before. A call that
      joins has one when its stored URL was made for the group's id. */
  predicate AsksUser(s: Hub, e: Event, client: nat)
    requires Shape(s)
  {
    && Enabled(s, e) && (e.Publish? || e.JoinExisting? || e.Resolved?)
    && assert ShapeOfCall(s, s.calls[e.call]);
       var call := s.calls[e.call];
       var d := s.data[call.entry];
       && s.client[call.entry] == client && d.status.None?
       && match e
          case Publish(_, source) => !source.NoUrl? && !s.pool[call.group.value].issueRaised
          case JoinExisting(_) => d.url.Some? && AsksOnJoining(d, s.pool[s.groups[client]])
          case Resolved(_, skipped, minted) =>
            var choice := Choose(DataOf(s, Members(s, s.entries, call.entry, skipped)), minted);
            d.url.Some? && d.webhookId == Some(choice.id) && !choice.confirmed
  }

  predicate AsksOnJoining(d: EntryData, group: Group) {
    d.webhookId == Some(group.webhookId) && !group.confirmed && !group.issueRaised
  }

  /** What a step does to an application's issue. */
  ghost predicate RaisesWhenAsked(s: Hub, e: Event, client: nat)
    requires Shape(s)
  {
    && (Raises(s, e, client) <==> AsksUser(s, e, client))
    && (client in Step(s, e).issues <==> AsksUser(s, e, client) || client in s.issues)
  }

  lemma PublishRaises(s: Hub, e: Event, client: nat)
    requires Shape(s) && Enabled(s, e) && e.Publish?
    ensures RaisesWhenAsked(s, e, client)
  {
    var s', c := Step(s, e), e.call;
    var found := UrlFound(s, c, e.source);
    assert ShapeOfCall(s, s.calls[c]);
    forall g | 0 <= g < |s.pool|
      ensures s'.pool[g].client == s.pool[g].client
      ensures s'.pool[g].raised > s.pool[g].raised
         <==> g == s.calls[c].group.value && AsksUser(s, e, s.client[s.calls[c].entry])
    {
      SettleRaisesIff(s, c, found, g);
    }
    SettleRaisesIff(s, c, found, s.calls[c].group.value);
    if AsksUser(s, e, client) {
      assert s'.pool[s.calls[c].group.value].client == client;
    }
  }

  lemma ArriveRaisesIff(s: Hub, c: nat, h: nat, g: nat)
    requires Sound(s, c) && h < |s.pool| && s.pool[h].client == s.client[s.calls[c].entry] && g < |s.pool|
    ensures var s', d := Arrive(s, c, h), s.data[s.calls[c].entry];
            var asks := d.url.Some? && d.status.None? && AsksOnJoining(d, s.pool[h]);
            && |s'.pool| == |s.pool| && s'.pool[g].client == s.pool[g].client
            && (s'.pool[g].raised > s.pool[g].raised <==> g == h && asks)
            && s'.issues == s.issues + if asks then {s.pool[h].client} else {}
  {
    var joined := Join(s, c, h);
    if joined.data[s.calls[c].entry].url.Some? {
      SettleRaisesIff(joined, c, joined.data[s.calls[c].entry].url, g);
    }
  }

  lemma JoinExistingRaises(s: Hub, e: Event, client: nat)
    requires Shape(s) && Enabled(s, e) && e.JoinExisting?
    ensures RaisesWhenAsked(s, e, client)
  {
    var s', k := Step(s, e), s.client[s.calls[e.call].entry];
    var h := s.groups[k];
    assert ShapeOfCall(s, s.calls[e.call]);
    forall g | 0 <= g < |s.pool|
      ensures s'.pool[g].client == s.pool[g].client
      ensures s'.pool[g].raised > s.pool[g].raised <==> g == h && AsksUser(s, e, k)
    {
      ArriveRaisesIff(s, e.call, h, g);
    }
    ArriveRaisesIff(s, e.call, h, h);
    if AsksUser(s, e, client) {
      assert s'.pool[h].client == client;
    }
  }

  lemma MadeAsks(s: Hub, c: nat, skipped: set<nat>, minted: nat)
    requires Shape(s) && Enabled(s, Resolved(c, skipped, minted))
    ensures var made, entry := Consolidate(s, c, skipped, minted), s.calls[c].entry;
            var d, d' := s.data[entry], made.data[entry];
            var group := made.pool[|s.pool|];
            && made.issues == s.issues && |made.pool| == |s.pool| + 1 && made.pool[..|s.pool|] == s.pool
            && group.client == s.client[entry] && group.raised == 0 && made.calls[c].entry == entry
            && (d'.url.Some? && d'.status.None? && AsksOnJoining(d', group)
                <==> AsksUser(s, Resolved(c, skipped, minted), s.client[entry]))
  {
  }

  lemma ResolvedRaisesIff(s: Hub, c: nat, skipped: set<nat>, minted: nat, g: nat)
    requires Shape(s) && Enabled(s, Resolved(c, skipped, minted)) && g <= |s.pool|
    ensures var s', k := ResolvedStep(s, c, skipped, minted), s.client[s.calls[c].entry];
            var asks := AsksUser(s, Resolved(c, skipped, minted), k);
            && |s'.pool| == |s.pool| + 1 && s'.pool[g].client == (if g == |s.pool| then k else s.pool[g].client)
            && (s'.pool[g].raised > (if g < |s.pool| then s.pool[g].raised else 0) <==> g == |s.pool| && asks)
            && s'.issues == s.issues + if asks then {k} else {}
  {
    var made := Consolidate(s, c, skipped, minted);
    MadeAsks(s, c, skipped, minted);
    ConsolidatedJoinShape(s, c, skipped, minted);
    assert ShapeOfCall(made, made.calls[c]);
    ArriveRaisesIff(made, c, |s.pool|, g);
    assert g < |s.pool| ==> made.pool[g] == made.pool[..|s.pool|][g];
  }

  lemma ResolvedRaisesWhenAsked(s: Hub, e: Event, client: nat)
    requires Shape(s) && Enabled(s, e) && e.Resolved?
    ensures RaisesWhenAsked(s, e, client)
  {
    var s' := Step(s, e);
    forall g: nat | g <= |s.pool|
      ensures s'.pool[g].client == if g == |s.pool| then s.client[s.calls[e.call].entry] else s.pool[g].client
      ensures s'.pool[g].raised > (if g < |s.pool| then s.pool[g].raised else 0)
         <==> g == |s.pool| && AsksUser(s, e, s.client[s.calls[e.call].entry])
    {
      ResolvedRaisesIff(s, e.call, e.skipped, e.minted, g);
    }
    ResolvedRaisesIff(s, e.call, e.skipped, e.minted, |s.pool|);
    if AsksUser(s, e, client) {
      assert s'.pool[|s.pool|].client == client;
    }
  }

  lemma OthersRaiseNothing(s: Hub, e: Event, client: nat)
    requires Shape(s) && !e.Publish? && !e.JoinExisting? && !e.Resolved?
    ensures !Raises(s, e, client) && !AsksUser(s, e, client)
    ensures !e.Traffic? ==> Step(s, e).issues == s.issues
  {
  }

  /** An application's issue is raised by a step exactly when a user is to be asked; it is open after the step exactly
      when it was raised or was open before and this was no first traffic. */
  lemma IssueAfterStep(s: Hub, e: Event, client: nat)
    requires Shape(s)
    ensures Raises(s, e, client) <==> AsksUser(s, e, client)
    ensures client in Step(s, e).issues
       <==> Raises(s, e, client) || (client in s.issues && !FirstTraffic(s, e, client))
  {
    if Enabled(s, e) && e.Publish? {
      PublishRaises(s, e, client);
    } else if Enabled(s, e) && e.JoinExisting? {
      JoinExistingRaises(s, e, client);
    } else if Enabled(s, e) && e.Resolved? {
      ResolvedRaisesWhenAsked(s, e, client);
    } else if Enabled(s, e) {
      OthersRaiseNothing(s, e, client);
      if e.Traffic? {
        TrafficEffects(s, e.id);
      }
    }
  }

  // ---------------------------------------------------------------- runs

  /** Event by event, whether it raised the application's issue. */
  ghost function Raisings(s: Hub, events: seq<Event>, client: nat): (raised: seq<bool>)
    requires Core(s)
    ensures |raised| == |events|
  {
    if events == [] then []
    else
      var rest := events[..|events| - 1];
      Raisings(s, rest, client) + [Raises(Run(s, rest), events[|events| - 1], client)]
  }

  /** Event by event, whether it was first traffic for the application. */
  ghost function Closings(s: Hub, events: seq<Event>, client: nat): (closed: seq<bool>)
    requires Core(s)
    ensures |closed| == |events|
  {
    if events == [] then []
    else
      var rest := events[..|events| - 1];
      Closings(s, rest, client) + [FirstTraffic(Run(s, rest), events[|events| - 1], client)]
  }

  predicate RaisedAndNotClosed(raised: seq<bool>, closed: seq<bool>, i: nat)
    requires |raised| == |closed|
  {
    i < |raised| && raised[i] && forall j :: i < j < |closed| ==> !closed[j]
  }

  ghost predicate StillOpen(raised: seq<bool>, closed: seq<bool>)
    requires |raised| == |closed|
  {
    exists i: nat :: RaisedAndNotClosed(raised, closed, i)
  }

  lemma OneMoreEvent(raised: seq<bool>, closed: seq<bool>, r: bool, c: bool)
    requires |raised| == |closed|
    ensures StillOpen(raised + [r], closed + [c]) <==> r || (StillOpen(raised, closed) && !c)
  {
    var raised', closed' := raised + [r], closed + [c];
    if i: nat :| RaisedAndNotClosed(raised', closed', i) {
      if i < |raised| {
        forall j | i < j < |closed|
          ensures !closed[j]
        {
          assert closed'[j] == closed[j];
        }
        assert !closed'[|closed|];
        assert RaisedAndNotClosed(raised, closed, i);
      }
    }
    if r {
      assert RaisedAndNotClosed(raised', closed', |raised|);
    } else if i: nat :| RaisedAndNotClosed(raised, closed, i) && !c {
      assert RaisedAndNotClosed(raised', closed', i);
    }
  }

  /** After any run an application's setup issue is open if and only if it was raised and none of its entries has heard
      its first traffic since. */
  lemma {:induction false} IssueIsOpenIff(s: Hub, events: seq<Event>, client: nat)
    requires Initial(s) && Core(s)
    ensures client in Run(s, events).issues <==> StillOpen(Raisings(s, events, client), Closings(s, events, client))
  {
    if events != [] {
      var rest, e := events[..|events| - 1], events[|events| - 1];
      IssueIsOpenIff(s, rest, client);
      IssueAfterStep(Run(s, rest), e, client);
      var r, c := Raises(Run(s, rest), e, client), FirstTraffic(Run(s, rest), e, client);
      OneMoreEvent(Raisings(s, rest, client), Closings(s, rest, client), r, c);
      assert Raisings(s, events, client) == Raisings(s, rest, client) + [r];
      assert Closings(s, events, client) == Closings(s, rest, client) + [c];
    }
  }
}
