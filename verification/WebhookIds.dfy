/** A group that registered its webhook keeps it registered for as long as it has members: applications never
    come to share an id. */
module WebhookIds {
  import opened Bytes
  import opened WebhookConsolidation
  import opened WebhookGroups
  import opened WebhookInvariants
  import opened WebhookSafety

  // ---------------------------------------------------------------- ids stay separate

  lemma SameIdsSeparate(s: Hub, s': Hub)
    requires Shape(s) && Shape(s') && Separate(s) && SameIds(s, s') && s'.client == s.client
    ensures Separate(s')
  {
  }

  /** An entry takes an id that another entry of its application has already. */
  lemma JoinSeparate(s: Hub, c: nat, g: nat, e: nat)
    requires Shape(s) && Separate(s) && At(s, c, Waiting) && g < |s.pool| && Shape(Join(s, c, g))
    requires e in s.data && s.client[e] == s.client[s.calls[c].entry]
    requires s.data[e].webhookId == Some(s.pool[g].webhookId)
    ensures Separate(Join(s, c, g))
  {
    var s', own := Join(s, c, g), s.calls[c].entry;
    assert s'.data[own].webhookId == s.data[e].webhookId;
    assert forall f :: f in s.data && f != own ==> s'.data[f] == s.data[f];
  }

  lemma ChosenIdBelongs(s: Hub, c: nat, skipped: set<nat>, minted: nat)
    requires Shape(s) && Enabled(s, Resolved(c, skipped, minted))
    ensures var members := Members(s, s.entries, s.calls[c].entry, skipped);
            var id := Choose(DataOf(s, members), minted).id;
            id == minted || exists e :: e in members && s.data[e].webhookId == Some(id)
  {
    var members := Members(s, s.entries, s.calls[c].entry, skipped);
    var ds := DataOf(s, members);
    ChosenIsStored(ds, minted);
    if Existing(ds) != {} {
      var i :| 0 <= i < |ds| && ds[i].webhookId == Some(Choose(ds, minted).id);
      assert members[i] in members;
    }
  }

  lemma ConsolidateSeparate(s: Hub, c: nat, skipped: set<nat>, minted: nat)
    requires Shape(s) && Separate(s) && Enabled(s, Resolved(c, skipped, minted))
    requires Shape(Consolidate(s, c, skipped, minted))
    ensures Separate(Consolidate(s, c, skipped, minted))
  {
    var runner := s.calls[c].entry;
    var members := Members(s, s.entries, runner, skipped);
    var id := Choose(DataOf(s, members), minted).id;
    MembersShareClient(s, s.entries, runner, skipped);
    ChosenIdBelongs(s, c, skipped, minted);
    AdoptedSeparate(s, members, id, s.client[runner], Consolidate(s, c, skipped, minted));
  }

  lemma AdoptedSeparate(s: Hub, members: seq<nat>, id: nat, client: nat, s': Hub)
    requires Shape(s) && Separate(s) && Shape(s') && s'.client == s.client && s'.data.Keys == s.data.Keys
    requires forall e :: e in members ==> e in s.data && s.client[e] == client
    requires (forall e :: e in s.data ==> s.data[e].webhookId != Some(id))
          || exists e :: e in members && s.data[e].webhookId == Some(id)
    requires forall e :: e in s.data ==> s'.data[e].webhookId == if e in members then Some(id) else s.data[e].webhookId
    ensures Separate(s')
  {
  }

  lemma RunnerIsMember(s: Hub, entries: seq<nat>, runner: nat, skipped: set<nat>)
    requires runner in entries
    ensures runner in Members(s, entries, runner, skipped)
  {
  }

  predicate Ordinary(e: Event) {
    !e.Resolved? && !e.JoinExisting?
  }

  /** Steps without a join change no id. */
  lemma OrdinarySame(s: Hub, e: Event)
    requires Shape(s) && Enabled(s, e) && Ordinary(e)
    ensures SameIds(s, Step(s, e))
  {
    match e
    case Publish(c, source) => SettleSame(s, c, UrlFound(s, c, source));
    case Register(c) => RegisterSame(s, c);
    case Traffic(id) => TrafficSame(s, id);
    case Start(c, entry) => StartSame(s, c, entry);
    case Resolve(c) => ResolveSame(s, c);
    case Abandon(c) => AbandonSame(s, c);
    case StopBegin(c) => StopBeginSame(s, c);
    case StopEnd(c) => StopEndSame(s, c);
  }

  lemma ConsolidatedOwnId(s: Hub, c: nat, skipped: set<nat>, minted: nat)
    requires Shape(s) && Enabled(s, Resolved(c, skipped, minted))
    ensures var s', own := Consolidate(s, c, skipped, minted), s.calls[c].entry;
            && own in s'.data && |s'.pool| == |s.pool| + 1
            && s'.data[own].webhookId == Some(s'.pool[|s.pool|].webhookId)
            && At(s', c, Waiting) && s'.calls[c].entry == own
  {
    RunnerIsMember(s, s.entries, s.calls[c].entry, skipped);
  }

  lemma ArriveSeparate(s: Hub, c: nat, g: nat, e: nat)
    requires Shape(s) && Separate(s) && At(s, c, Waiting) && g < |s.pool| && Shape(Join(s, c, g))
    requires s.pool[g].client == s.client[s.calls[c].entry] && Shape(Arrive(s, c, g))
    requires e in s.data && s.client[e] == s.client[s.calls[c].entry]
    requires s.data[e].webhookId == Some(s.pool[g].webhookId)
    ensures Separate(Arrive(s, c, g))
  {
    var joined := Join(s, c, g);
    JoinSeparate(s, c, g, e);
    if joined.data[s.calls[c].entry].url.Some? {
      SettleSame(joined, c, joined.data[s.calls[c].entry].url);
      SameIdsSeparate(joined, Arrive(s, c, g));
    }
  }

  lemma ResolvedSeparate(s: Hub, c: nat, skipped: set<nat>, minted: nat)
    requires Shape(s) && Separate(s) && Enabled(s, Resolved(c, skipped, minted))
    requires Shape(ResolvedStep(s, c, skipped, minted))
    ensures Separate(ResolvedStep(s, c, skipped, minted))
  {
    var s' := Consolidate(s, c, skipped, minted);
    ConsolidatedJoinShape(s, c, skipped, minted);
    ConsolidateSeparate(s, c, skipped, minted);
    ConsolidatedOwnId(s, c, skipped, minted);
    ArriveSeparate(s', c, |s.pool|, s'.calls[c].entry);
  }

  lemma JoinExistingSeparate(s: Hub, c: nat)
    requires Shape(s) && Counted(s) && IdsAgree(s) && Separate(s) && Enabled(s, JoinExisting(c))
    requires Shape(JoinExistingStep(s, c))
    ensures Separate(JoinExistingStep(s, c))
  {
    var g := s.groups[s.client[s.calls[c].entry]];
    ExistingJoinShape(s, c);
    assert Attached(s, g);
    var other :| other in Live(s, g);
    assert ShapeOfCall(s, s.calls[other]);
    ArriveSeparate(s, c, g, s.calls[other].entry);
  }

  lemma SeparateStep(s: Hub, e: Event)
    requires Shape(s) && Counted(s) && IdsAgree(s) && Separate(s) && Shape(Step(s, e))
    ensures Separate(Step(s, e))
  {
    if Enabled(s, e) {
      match e
      case Resolved(c, skipped, minted) => ResolvedSeparate(s, c, skipped, minted);
      case JoinExisting(c) => JoinExistingSeparate(s, c);
      case _ =>
        OrdinarySame(s, e);
        SameIdsSeparate(s, Step(s, e));
    }
  }

  // ---------------------------------------------------------------- registered webhooks stay registered

  lemma StopEndKeepsOthers(s: Hub, c: nat)
    requires Shape(s) && Counted(s) && IdsAgree(s) && Separate(s) && RegisteredKept(s) && Enabled(s, StopEnd(c))
    ensures RegisteredKept(StopEndStep(s, c))
  {
    var s' := StopEndStep(s, c);
    StopFindsItsGroup(s, c);
    var g := s.calls[c].group.value;
    forall h | 0 <= h < |s'.pool| && Attached(s', h) && s'.pool[h].registered
      ensures s'.pool[h].webhookId in s'.registry
    {
      assert Attached(s, h);
      if s.pool[h].client != s.pool[g].client {
        var other :| other in Live(s, h);
        assert ShapeOfCall(s, s.calls[other]) && ShapeOfCall(s, s.calls[c]);
        assert s.client[s.calls[other].entry] != s.client[s.calls[c].entry];
      }
    }
  }

  lemma QuietKept(s: Hub, s': Hub)
    requires RegisteredKept(s) && s.registry.Keys <= s'.registry.Keys && SameIds(s, s')
    requires forall g :: 0 <= g < |s.pool| && s'.pool[g].registered ==>
               s.pool[g].registered || s.pool[g].webhookId in s'.registry
    ensures RegisteredKept(s')
  {
  }

  lemma JoinKept(s: Hub, c: nat, g: nat)
    requires Shape(s) && RegisteredKept(s) && At(s, c, Waiting) && g < |s.pool|
    ensures RegisteredKept(Join(s, c, g))
  {
    var s' := Join(s, c, g);
    assert forall h: nat :: h < |s.pool| ==> (Attached(s', h) <==> Attached(s, h));
  }

  lemma SettleKept(s: Hub, c: nat, found: Option<Url>)
    requires Shape(s) && RegisteredKept(s) && AwaitsUrl(s, c)
    ensures RegisteredKept(Settle(s, c, found))
  {
    SettleSame(s, c, found);
    QuietKept(s, Settle(s, c, found));
  }

  lemma ArriveKept(s: Hub, c: nat, g: nat)
    requires Shape(s) && RegisteredKept(s) && At(s, c, Waiting) && g < |s.pool|
    requires s.pool[g].client == s.client[s.calls[c].entry] && Shape(Join(s, c, g))
    ensures RegisteredKept(Arrive(s, c, g))
  {
    var joined := Join(s, c, g);
    JoinKept(s, c, g);
    if joined.data[s.calls[c].entry].url.Some? {
      SettleKept(joined, c, joined.data[s.calls[c].entry].url);
    }
  }

  lemma ConsolidateKept(s: Hub, c: nat, skipped: set<nat>, minted: nat)
    requires Shape(s) && RegisteredKept(s) && Enabled(s, Resolved(c, skipped, minted))
    ensures RegisteredKept(Consolidate(s, c, skipped, minted))
  {
    var s' := Consolidate(s, c, skipped, minted);
    assert forall h: nat :: h < |s.pool| && Attached(s', h) ==> Attached(s, h);
  }

  lemma OrdinaryRegistry(s: Hub, e: Event)
    requires Shape(s) && Enabled(s, e) && Ordinary(e) && !e.StopEnd?
    ensures s.registry.Keys <= Step(s, e).registry.Keys
    ensures forall g :: 0 <= g < |s.pool| && g < |Step(s, e).pool| && Step(s, e).pool[g].registered ==>
              s.pool[g].registered || s.pool[g].webhookId in Step(s, e).registry
  {
    assert e.Register? ==> ShapeOfCall(s, s.calls[e.call]);
  }

  lemma OrdinaryKept(s: Hub, e: Event)
    requires Shape(s) && RegisteredKept(s) && Enabled(s, e) && Ordinary(e) && !e.StopEnd?
    ensures RegisteredKept(Step(s, e))
  {
    OrdinarySame(s, e);
    OrdinaryRegistry(s, e);
    QuietKept(s, Step(s, e));
  }

  lemma ResolvedKept(s: Hub, c: nat, skipped: set<nat>, minted: nat)
    requires Shape(s) && RegisteredKept(s) && Enabled(s, Resolved(c, skipped, minted))
    ensures RegisteredKept(ResolvedStep(s, c, skipped, minted))
  {
    ConsolidatedJoinShape(s, c, skipped, minted);
    ConsolidateKept(s, c, skipped, minted);
    ArriveKept(Consolidate(s, c, skipped, minted), c, |s.pool|);
  }

  lemma JoinExistingKept(s: Hub, c: nat)
    requires Shape(s) && RegisteredKept(s) && Enabled(s, JoinExisting(c))
    ensures RegisteredKept(JoinExistingStep(s, c))
  {
    ExistingJoinShape(s, c);
    ArriveKept(s, c, s.groups[s.client[s.calls[c].entry]]);
  }

  /** A webhook once registered for a group stays registered while the group is in the dictionary. */
  lemma RegisteredKeptStep(s: Hub, e: Event)
    requires Shape(s) && Counted(s) && IdsAgree(s) && Separate(s) && RegisteredKept(s)
    ensures RegisteredKept(Step(s, e))
  {
    if Enabled(s, e) {
      match e
      case Resolved(c, skipped, minted) => ResolvedKept(s, c, skipped, minted);
      case JoinExisting(c) => JoinExistingKept(s, c);
      case StopEnd(c) => StopEndKeepsOthers(s, c);
      case _ => OrdinaryKept(s, e);
    }
  }

  lemma KeptStep(s: Hub, e: Event)
    requires Core(s) && Separate(s) && RegisteredKept(s)
    ensures Core(Step(s, e)) && Separate(Step(s, e)) && RegisteredKept(Step(s, e))
  {
    CoreStep(s, e);
    SeparateStep(s, e);
    RegisteredKeptStep(s, e);
  }

  lemma {:induction false} RunKeepsRegistered(s: Hub, events: seq<Event>)
    requires Initial(s) && Core(s) && Separate(s)
    ensures Separate(Run(s, events)) && RegisteredKept(Run(s, events))
  {
    if events != [] {
      RunKeepsRegistered(s, events[..|events| - 1]);
      KeptStep(Run(s, events[..|events| - 1]), events[|events| - 1]);
    }
  }

  /** After any run, a group that has members and has registered its webhook has it registered still. */
  lemma MembersKeepTheWebhook(s: Hub, events: seq<Event>, g: nat)
    requires Initial(s) && Core(s) && Separate(s) && g < |Run(s, events).pool|
    ensures var s' := Run(s, events);
            Live(s', g) != {} && s'.pool[g].registered ==> s'.pool[g].webhookId in s'.registry
  {
    RunKeepsRegistered(s, events);
  }
}
