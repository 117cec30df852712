/** What the shared webhook promises over whole runs. */
module WebhookSafety {
  import opened Bytes
  import opened WebhookConsolidation
  import opened WebhookGroups
  import opened WebhookInvariants

  /** Before any call: stored data, nothing in memory. */
  ghost predicate Initial(s: Hub) {
    && Shape(s) && StatusesTrue(s)
    && s.pool == [] && s.groups == map[] && s.lock == None && s.calls == map[]
    && s.registry == map[] && s.issues == {} && !s.early
    && forall e :: e in s.data ==> Coherent(s.data[e])
  }

  /** The state after any sequence of events, those not possible when they come being left out. */
  ghost function Run(s: Hub, events: seq<Event>): (s': Hub)
    requires Core(s)
    ensures Core(s')
  {
    if events == [] then s
    else
      var t, e := Run(s, events[..|events| - 1]), events[|events| - 1];
      CoreStep(t, e);
      Step(t, e)
  }

  // ---------------------------------------------------------------- registrations have owners

  /** The one step that registers a webhook nobody will take away: the call's group has left the dictionary. */
  ghost predicate RegistersOrphan(s: Hub, e: Event)
    requires Shape(s)
  {
    && e.Register? && Enabled(s, e)
    && var g := s.calls[e.call].group.value; !Attached(s, g) && !s.pool[g].registered
  }

  lemma RegisterOrphans(s: Hub, c: nat)
    requires Shape(s) && Enabled(s, Register(c)) && RegistersOrphan(s, Register(c))
    ensures !NoOrphans(RegisterStep(s, c))
  {
    var s', g := RegisterStep(s, c), s.calls[c].group.value;
    assert s.pool[g].webhookId in s'.registry && s'.registry[s.pool[g].webhookId] == c;
    assert !Owned(s', c, s.pool[g].webhookId);
  }

  lemma RegisterOwners(s: Hub, c: nat)
    requires Shape(s) && NoOrphans(s) && Enabled(s, Register(c)) && !RegistersOrphan(s, Register(c))
    ensures NoOrphans(RegisterStep(s, c))
  {
    var s' := RegisterStep(s, c);
    assert ShapeOfCall(s, s.calls[c]);
    forall id | id in s'.registry ensures Owned(s', s'.registry[id], id) {
      if id in s.registry && s'.registry[id] == s.registry[id] {
        assert Owned(s, s.registry[id], id);
        assert Attached(s', s.calls[s.registry[id]].group.value);
      } else {
        assert Attached(s', s.calls[c].group.value);
      }
    }
  }

  /** A STOP callback finds the group its call joined, and remembers that group's webhook id. */
  lemma StopFindsItsGroup(s: Hub, c: nat)
    requires Shape(s) && Counted(s) && IdsAgree(s) && Enabled(s, StopEnd(c))
    ensures var k := s.client[s.calls[c].entry];
            && k in s.groups && s.calls[c].group == Some(s.groups[k])
            && s.calls[c].stop.webhookId == s.pool[s.groups[k]].webhookId
  {
    LiveIsAttached(s, c);
  }

  lemma StopEndOwners(s: Hub, c: nat)
    requires Shape(s) && NoOrphans(s) && Enabled(s, StopEnd(c))
    requires var k := s.client[s.calls[c].entry];
             k in s.groups && s.calls[c].stop.webhookId == s.pool[s.groups[k]].webhookId
    ensures NoOrphans(StopEndStep(s, c))
  {
    var s' := StopEndStep(s, c);
    forall id | id in s'.registry ensures Owned(s', s'.registry[id], id) {
      assert Owned(s, s.registry[id], id);
      assert Attached(s', s.calls[s.registry[id]].group.value);
    }
  }

  lemma JoinOwners(s: Hub, c: nat, g: nat)
    requires Shape(s) && NoOrphans(s) && At(s, c, Waiting) && g < |s.pool|
    ensures NoOrphans(Join(s, c, g))
  {
    var s' := Join(s, c, g);
    forall id | id in s'.registry ensures Owned(s', s'.registry[id], id) {
      assert Owned(s, s.registry[id], id);
      assert ShapeOfCall(s, s.calls[c]);
      assert Attached(s', s.calls[s.registry[id]].group.value);
    }
  }

  lemma ConsolidateOwners(s: Hub, c: nat, skipped: set<nat>, minted: nat)
    requires Shape(s) && NoOrphans(s) && Enabled(s, Resolved(c, skipped, minted))
    ensures NoOrphans(Consolidate(s, c, skipped, minted))
  {
    var s' := Consolidate(s, c, skipped, minted);
    forall id | id in s'.registry ensures Owned(s', s'.registry[id], id) {
      assert Owned(s, s.registry[id], id);
      assert ShapeOfCall(s, s.calls[s.registry[id]]);
      assert Attached(s', s.calls[s.registry[id]].group.value);
    }
  }

  /** Steps that leave the registry, the dictionary and everybody's group alone. */
  lemma QuietOwners(s: Hub, s': Hub)
    requires NoOrphans(s) && s'.registry == s.registry && SameJoins(s, s')
    requires forall g :: 0 <= g < |s.pool| ==>
               s'.pool[g].webhookId == s.pool[g].webhookId && s'.pool[g].registered == s.pool[g].registered
    ensures NoOrphans(s')
  {
    forall id | id in s'.registry ensures Owned(s', s'.registry[id], id) {
      assert Owned(s, s.registry[id], id);
    }
  }

  lemma OtherOwners(s: Hub, e: Event)
    requires Shape(s) && NoOrphans(s) && Enabled(s, e)
    requires e.Start? || e.Resolve? || e.Abandon? || e.StopBegin?
    ensures NoOrphans(Step(s, e))
  {
    match e
    case Start(c, entry) => StartSame(s, c, entry); QuietOwners(s, StartStep(s, c, entry));
    case Resolve(c) => ResolveSame(s, c); QuietOwners(s, ResolveStep(s, c));
    case Abandon(c) => AbandonSame(s, c); QuietOwners(s, AbandonStep(s, c));
    case StopBegin(c) => StopBeginSame(s, c); QuietOwners(s, StopBeginStep(s, c));
  }

  lemma SettleOwners(s: Hub, c: nat, found: Option<Url>)
    requires Shape(s) && NoOrphans(s) && AwaitsUrl(s, c)
    ensures NoOrphans(Settle(s, c, found))
  {
    SettleSame(s, c, found);
    QuietOwners(s, Settle(s, c, found));
  }

  lemma ArriveOwners(s: Hub, c: nat, g: nat)
    requires Shape(s) && NoOrphans(s) && At(s, c, Waiting) && g < |s.pool|
    requires s.pool[g].client == s.client[s.calls[c].entry] && Shape(Join(s, c, g))
    ensures NoOrphans(Arrive(s, c, g))
  {
    var joined := Join(s, c, g);
    JoinOwners(s, c, g);
    if joined.data[s.calls[c].entry].url.Some? {
      SettleOwners(joined, c, joined.data[s.calls[c].entry].url);
    }
  }

  lemma TrafficOwners(s: Hub, id: nat)
    requires Shape(s) && NoOrphans(s) && Enabled(s, Traffic(id))
    ensures NoOrphans(TrafficStep(s, id))
  {
    TrafficSame(s, id);
    QuietOwners(s, TrafficStep(s, id));
  }

  lemma ExistingJoinShape(s: Hub, c: nat)
    requires Shape(s) && Enabled(s, JoinExisting(c))
    ensures Shape(Join(s, c, s.groups[s.client[s.calls[c].entry]]))
  {
    JoinShape(s, c, s.groups[s.client[s.calls[c].entry]]);
  }

  lemma ConsolidatedJoinShape(s: Hub, c: nat, skipped: set<nat>, minted: nat)
    requires Shape(s) && Enabled(s, Resolved(c, skipped, minted))
    ensures Shape(Consolidate(s, c, skipped, minted))
    ensures Shape(Join(Consolidate(s, c, skipped, minted), c, |s.pool|))
  {
    ConsolidateShape(s, c, skipped, minted);
    JoinShape(Consolidate(s, c, skipped, minted), c, |s.pool|);
  }

  lemma JoinExistingOwners(s: Hub, c: nat)
    requires Shape(s) && NoOrphans(s) && Enabled(s, JoinExisting(c))
    ensures NoOrphans(JoinExistingStep(s, c))
  {
    ExistingJoinShape(s, c);
    ArriveOwners(s, c, s.groups[s.client[s.calls[c].entry]]);
  }

  lemma ResolvedOwners(s: Hub, c: nat, skipped: set<nat>, minted: nat)
    requires Shape(s) && NoOrphans(s) && Enabled(s, Resolved(c, skipped, minted))
    ensures NoOrphans(ResolvedStep(s, c, skipped, minted))
  {
    ConsolidatedJoinShape(s, c, skipped, minted);
    ConsolidateOwners(s, c, skipped, minted);
    ArriveOwners(Consolidate(s, c, skipped, minted), c, |s.pool|);
  }

  /** Every registered webhook keeps an owner through a step, unless the step registers for a group that
      was taken out of the dictionary before. */
  lemma OwnersKeptIff(s: Hub, e: Event)
    requires Core(s) && NoOrphans(s)
    ensures NoOrphans(Step(s, e)) <==> !RegistersOrphan(s, e)
  {
    if Enabled(s, e) {
      match e
      case Register(c) =>
        if RegistersOrphan(s, e) {
          RegisterOrphans(s, c);
        } else {
          RegisterOwners(s, c);
        }
      case StopEnd(c) => StopFindsItsGroup(s, c); StopEndOwners(s, c);
      case Publish(c, source) => SettleOwners(s, c, UrlFound(s, c, source));
      case Traffic(id) => TrafficOwners(s, id);
      case JoinExisting(c) => JoinExistingOwners(s, c);
      case Resolved(c, skipped, minted) => ResolvedOwners(s, c, skipped, minted);
      case _ => OtherOwners(s, e);
    }
  }

  // ---------------------------------------------------------------- stored URLs match stored ids

  /** The one step that stores a URL beside an id it was not made for: the entry's id has changed since the cloud
      was asked for the URL. */
  predicate StoresStaleUrl(s: Hub, e: Event) {
    && e.Publish? && Enabled(s, e) && e.source.CloudUrl?
    && var call := s.calls[e.call];
       call.entry in s.data && s.data[call.entry].webhookId != Some(call.stage.asked)
  }

  lemma AdoptCoherent(d: EntryData, id: nat, confirmed: bool)
    requires Coherent(d)
    ensures Coherent(Adopt(d, id, confirmed))
  {
  }

  lemma JoinUrls(s: Hub, c: nat, g: nat)
    requires Shape(s) && UrlsCoherent(s) && At(s, c, Waiting) && g < |s.pool| && Shape(Join(s, c, g))
    ensures UrlsCoherent(Join(s, c, g))
  {
    var e := s.calls[c].entry;
    AdoptCoherent(s.data[e], s.pool[g].webhookId, s.pool[g].confirmed);
    forall c' | c' in s.calls && s.calls[c'].stage.GettingUrl? ensures s.calls[c'].group.value < |s.pool| {
      assert ShapeOfCall(s, s.calls[c']);
    }
  }

  lemma ConsolidateUrls(s: Hub, c: nat, skipped: set<nat>, minted: nat)
    requires Shape(s) && UrlsCoherent(s) && Enabled(s, Resolved(c, skipped, minted))
    requires Shape(Consolidate(s, c, skipped, minted))
    ensures UrlsCoherent(Consolidate(s, c, skipped, minted))
  {
    forall c' | c' in s.calls && s.calls[c'].stage.GettingUrl? ensures s.calls[c'].group.value < |s.pool| {
      assert ShapeOfCall(s, s.calls[c']);
    }
  }

  lemma SettleUrls(s: Hub, c: nat, found: Option<Url>)
    requires Shape(s) && UrlsCoherent(s) && AwaitsUrl(s, c) && Shape(Settle(s, c, found))
    ensures UrlsCoherent(Settle(s, c, found))
       <==> found.None? || s.data[s.calls[c].entry].webhookId == Some(found.value.forId)
  {
    var s', e := Settle(s, c, found), s.calls[c].entry;
    assert ShapeOfCall(s, s.calls[c]);
    assert Coherent(s'.data[e]) <==> found.None? || s.data[e].webhookId == Some(found.value.forId);
  }

  lemma ArriveUrls(s: Hub, c: nat, g: nat)
    requires Shape(s) && UrlsCoherent(s) && At(s, c, Waiting) && g < |s.pool|
    requires s.pool[g].client == s.client[s.calls[c].entry] && Shape(Join(s, c, g)) && Shape(Arrive(s, c, g))
    ensures UrlsCoherent(Arrive(s, c, g))
  {
    var joined, e := Join(s, c, g), s.calls[c].entry;
    JoinUrls(s, c, g);
    if joined.data[e].url.Some? {
      assert Coherent(joined.data[e]);
      SettleUrls(joined, c, joined.data[e].url);
    }
  }

  /** Steps that change neither stored ids and URLs nor what calls look up. */
  lemma QuietUrls(s: Hub, s': Hub)
    requires Shape(s) && Shape(s') && UrlsCoherent(s) && SameIds(s, s')
    requires forall e :: e in s.data ==> s'.data[e].url == s.data[e].url
    requires forall c :: c in s'.calls && s'.calls[c].stage.GettingUrl? ==>
               c in s.calls && s'.calls[c].stage == s.calls[c].stage
    ensures UrlsCoherent(s')
  {
    forall c | c in s'.calls && s'.calls[c].stage.GettingUrl?
      ensures s'.calls[c].group == s.calls[c].group && s.calls[c].group.value < |s.pool|
    {
      assert ShapeOfCall(s, s.calls[c]) && ShapeOfCall(s', s'.calls[c]);
    }
  }

  lemma StartUrls(s: Hub, c: nat, entry: nat)
    requires Shape(s) && UrlsCoherent(s) && Enabled(s, Start(c, entry)) && Shape(StartStep(s, c, entry))
    ensures UrlsCoherent(StartStep(s, c, entry))
  {
    StartSame(s, c, entry);
    QuietUrls(s, StartStep(s, c, entry));
  }

  lemma ResolveUrls(s: Hub, c: nat)
    requires Shape(s) && UrlsCoherent(s) && Enabled(s, Resolve(c)) && Shape(ResolveStep(s, c))
    ensures UrlsCoherent(ResolveStep(s, c))
  {
    ResolveSame(s, c);
    QuietUrls(s, ResolveStep(s, c));
  }

  lemma AbandonUrls(s: Hub, c: nat)
    requires Shape(s) && UrlsCoherent(s) && Enabled(s, Abandon(c)) && Shape(AbandonStep(s, c))
    ensures UrlsCoherent(AbandonStep(s, c))
  {
    AbandonSame(s, c);
    QuietUrls(s, AbandonStep(s, c));
  }

  lemma StopBeginUrls(s: Hub, c: nat)
    requires Shape(s) && UrlsCoherent(s) && Enabled(s, StopBegin(c)) && Shape(StopBeginStep(s, c))
    ensures UrlsCoherent(StopBeginStep(s, c))
  {
    StopBeginSame(s, c);
    QuietUrls(s, StopBeginStep(s, c));
  }

  lemma StopEndUrls(s: Hub, c: nat)
    requires Shape(s) && UrlsCoherent(s) && Enabled(s, StopEnd(c)) && Shape(StopEndStep(s, c))
    ensures UrlsCoherent(StopEndStep(s, c))
  {
    StopEndSame(s, c);
    QuietUrls(s, StopEndStep(s, c));
  }

  lemma RegisterUrls(s: Hub, c: nat)
    requires Shape(s) && UrlsCoherent(s) && Enabled(s, Register(c)) && Shape(RegisterStep(s, c))
    ensures UrlsCoherent(RegisterStep(s, c))
  {
    RegisterSame(s, c);
    QuietUrls(s, RegisterStep(s, c));
  }

  lemma TrafficUrls(s: Hub, id: nat)
    requires Shape(s) && UrlsCoherent(s) && Enabled(s, Traffic(id)) && Shape(TrafficStep(s, id))
    ensures UrlsCoherent(TrafficStep(s, id))
  {
    TrafficSame(s, id);
    QuietUrls(s, TrafficStep(s, id));
  }

  lemma JoinExistingUrls(s: Hub, c: nat)
    requires Shape(s) && UrlsCoherent(s) && Enabled(s, JoinExisting(c)) && Shape(JoinExistingStep(s, c))
    ensures UrlsCoherent(JoinExistingStep(s, c))
  {
    ExistingJoinShape(s, c);
    ArriveUrls(s, c, s.groups[s.client[s.calls[c].entry]]);
  }

  lemma ResolvedUrls(s: Hub, c: nat, skipped: set<nat>, minted: nat)
    requires Shape(s) && UrlsCoherent(s) && Enabled(s, Resolved(c, skipped, minted))
    requires Shape(ResolvedStep(s, c, skipped, minted))
    ensures UrlsCoherent(ResolvedStep(s, c, skipped, minted))
  {
    ConsolidatedJoinShape(s, c, skipped, minted);
    ConsolidateUrls(s, c, skipped, minted);
    ArriveUrls(Consolidate(s, c, skipped, minted), c, |s.pool|);
  }

  lemma OtherUrls(s: Hub, e: Event)
    requires Shape(s) && IdsAgree(s) && UrlsCoherent(s) && Shape(Step(s, e)) && !e.Publish?
    ensures UrlsCoherent(Step(s, e))
  {
    if Enabled(s, e) {
      match e
      case JoinExisting(c) => JoinExistingUrls(s, c);
      case Resolved(c, skipped, minted) => ResolvedUrls(s, c, skipped, minted);
      case Register(c) => RegisterUrls(s, c);
      case Traffic(id) => TrafficUrls(s, id);
      case Start(c, entry) => StartUrls(s, c, entry);
      case Resolve(c) => ResolveUrls(s, c);
      case Abandon(c) => AbandonUrls(s, c);
      case StopBegin(c) => StopBeginUrls(s, c);
      case StopEnd(c) => StopEndUrls(s, c);
    }
  }

  /** Stored URLs keep matching the ids beside them through a step, unless the step stores a stale one. */
  lemma UrlsKeptIff(s: Hub, e: Event)
    requires Shape(s) && IdsAgree(s) && UrlsCoherent(s) && Shape(Step(s, e))
    ensures UrlsCoherent(Step(s, e)) <==> !StoresStaleUrl(s, e)
  {
    if !e.Publish? {
      OtherUrls(s, e);
    } else if Enabled(s, e) {
      assert ShapeOfCall(s, s.calls[e.call]);
      SettleUrls(s, e.call, UrlFound(s, e.call, e.source));
    }
  }

  // ---------------------------------------------------------------- a confirmed group's members are marked

  lemma JoinMarks(s: Hub, c: nat, g: nat)
    requires Shape(s) && ConfirmedMarked(s) && At(s, c, Waiting) && g < |s.pool| && Shape(Join(s, c, g))
    ensures ConfirmedMarked(Join(s, c, g))
  {
    var s' := Join(s, c, g);
    forall c' | c' in s'.calls && s'.calls[c'].group.Some? && s'.pool[s'.calls[c'].group.value].confirmed
      ensures Marked(s'.data[s'.calls[c'].entry])
    {
      assert c' != c ==> ShapeOfCall(s, s.calls[c']);
    }
  }

  lemma ConsolidateMarks(s: Hub, c: nat, skipped: set<nat>, minted: nat)
    requires Shape(s) && ConfirmedMarked(s) && Enabled(s, Resolved(c, skipped, minted))
    requires Shape(Consolidate(s, c, skipped, minted))
    ensures ConfirmedMarked(Consolidate(s, c, skipped, minted))
  {
    var s' := Consolidate(s, c, skipped, minted);
    forall c' | c' in s'.calls && s'.calls[c'].group.Some? && s'.pool[s'.calls[c'].group.value].confirmed
      ensures Marked(s'.data[s'.calls[c'].entry])
    {
      assert ShapeOfCall(s, s.calls[c']);
    }
  }

  /** The one step that leaves a member of a confirmed group without a mark: traffic for an entry whose application
      has a group with another id by now, and a member that has no status. */
  ghost predicate MissesMarks(s: Hub, e: Event)
    requires Shape(s)
  {
    && e.Traffic? && Enabled(s, e)
    && var d, k := s.data[s.calls[s.registry[e.id]].entry], s.client[s.calls[s.registry[e.id]].entry];
       && d.status.None? && k in s.groups && d.webhookId != Some(s.pool[s.groups[k]].webhookId)
       && exists c :: c in s.calls && s.calls[c].group == Some(s.groups[k]) && s.data[s.calls[c].entry].status.None?
  }

  lemma TrafficMisses(s: Hub, id: nat)
    requires Shape(s) && IdsAgree(s) && MissesMarks(s, Traffic(id)) && Shape(TrafficStep(s, id))
    ensures !ConfirmedMarked(TrafficStep(s, id))
  {
    var s', h := TrafficStep(s, id), s.calls[s.registry[id]].entry;
    var g := s.groups[s.client[h]];
    var c :| c in s.calls && s.calls[c].group == Some(g) && s.data[s.calls[c].entry].status.None?;
    assert ShapeOfCall(s, s.calls[c]) && Attached(s, g);
    assert s'.data[s.calls[c].entry] == Confirm(s.data[s.calls[c].entry], s.data[h].webhookId);
    assert s'.calls[c].group == Some(g) && s'.pool[g].confirmed && !Marked(s'.data[s'.calls[c].entry]);
  }

  /** Otherwise traffic marks everyone in the group it confirms, by their common id. */
  lemma TrafficMarks(s: Hub, id: nat)
    requires Shape(s) && IdsAgree(s) && StatusesTrue(s) && ConfirmedMarked(s)
    requires Enabled(s, Traffic(id)) && !MissesMarks(s, Traffic(id)) && Shape(TrafficStep(s, id))
    ensures ConfirmedMarked(TrafficStep(s, id))
  {
    var s', h := TrafficStep(s, id), s.calls[s.registry[id]].entry;
    assert ShapeOfCall(s, s.calls[s.registry[id]]);
    forall c | c in s'.calls && s'.calls[c].group.Some? && s'.pool[s'.calls[c].group.value].confirmed
      ensures Marked(s'.data[s'.calls[c].entry])
    {
      assert ShapeOfCall(s, s.calls[c]);
      TrafficMarksOne(s, id, c);
    }
  }

  lemma TrafficMarksOne(s: Hub, id: nat, c: nat)
    requires Shape(s) && IdsAgree(s) && StatusesTrue(s) && ConfirmedMarked(s)
    requires Enabled(s, Traffic(id)) && !MissesMarks(s, Traffic(id))
    requires c in s.calls && s.calls[c].group.Some? && TrafficStep(s, id).pool[s.calls[c].group.value].confirmed
    ensures Marked(TrafficStep(s, id).data[s.calls[c].entry])
  {
    var h, d, g := s.calls[s.registry[id]].entry, s.data[s.calls[c].entry], s.calls[c].group.value;
    assert ShapeOfCall(s, s.calls[s.registry[id]]) && ShapeOfCall(s, s.calls[c]);
    if s.pool[g].confirmed {
      assert Marked(d);
    } else {
      assert g == s.groups[s.client[h]] && Attached(s, g) && s.data[h].status.None?;
      assert d.webhookId == Some(s.pool[g].webhookId);
    }
  }

  /** A webhook that has an owner misses nobody. */
  lemma OwnedMissesNothing(s: Hub, e: Event)
    requires Shape(s) && IdsAgree(s) && NoOrphans(s)
    ensures !MissesMarks(s, e)
  {
    if e.Traffic? && Enabled(s, e) {
      var h := s.registry[e.id];
      assert Owned(s, h, e.id) && ShapeOfCall(s, s.calls[h]);
    }
  }

  /** Steps after which nobody is in a newly confirmed group and nobody has lost a mark. */
  lemma QuietMarks(s: Hub, s': Hub)
    requires Shape(s) && Shape(s') && ConfirmedMarked(s) && SameIds(s, s')
    requires forall e :: e in s.data ==> (Marked(s.data[e]) ==> Marked(s'.data[e]))
    requires forall g :: 0 <= g < |s.pool| ==> s'.pool[g].confirmed == s.pool[g].confirmed
    ensures ConfirmedMarked(s')
  {
    forall c | c in s'.calls && s'.calls[c].group.Some? && s'.pool[s'.calls[c].group.value].confirmed
      ensures Marked(s'.data[s'.calls[c].entry])
    {
      assert ShapeOfCall(s, s.calls[c]) && ShapeOfCall(s', s'.calls[c]);
    }
  }

  lemma StartMarks(s: Hub, c: nat, entry: nat)
    requires Shape(s) && ConfirmedMarked(s) && Enabled(s, Start(c, entry)) && Shape(StartStep(s, c, entry))
    ensures ConfirmedMarked(StartStep(s, c, entry))
  {
    StartSame(s, c, entry);
    QuietMarks(s, StartStep(s, c, entry));
  }

  lemma ResolveMarks(s: Hub, c: nat)
    requires Shape(s) && ConfirmedMarked(s) && Enabled(s, Resolve(c)) && Shape(ResolveStep(s, c))
    ensures ConfirmedMarked(ResolveStep(s, c))
  {
    ResolveSame(s, c);
    QuietMarks(s, ResolveStep(s, c));
  }

  lemma AbandonMarks(s: Hub, c: nat)
    requires Shape(s) && ConfirmedMarked(s) && Enabled(s, Abandon(c)) && Shape(AbandonStep(s, c))
    ensures ConfirmedMarked(AbandonStep(s, c))
  {
    AbandonSame(s, c);
    QuietMarks(s, AbandonStep(s, c));
  }

  lemma StopBeginMarks(s: Hub, c: nat)
    requires Shape(s) && ConfirmedMarked(s) && Enabled(s, StopBegin(c)) && Shape(StopBeginStep(s, c))
    ensures ConfirmedMarked(StopBeginStep(s, c))
  {
    StopBeginSame(s, c);
    QuietMarks(s, StopBeginStep(s, c));
  }

  lemma StopEndMarks(s: Hub, c: nat)
    requires Shape(s) && ConfirmedMarked(s) && Enabled(s, StopEnd(c)) && Shape(StopEndStep(s, c))
    ensures ConfirmedMarked(StopEndStep(s, c))
  {
    StopEndSame(s, c);
    QuietMarks(s, StopEndStep(s, c));
  }

  lemma RegisterMarks(s: Hub, c: nat)
    requires Shape(s) && ConfirmedMarked(s) && Enabled(s, Register(c)) && Shape(RegisterStep(s, c))
    ensures ConfirmedMarked(RegisterStep(s, c))
  {
    RegisterSame(s, c);
    QuietMarks(s, RegisterStep(s, c));
  }

  lemma SettleMarks(s: Hub, c: nat, found: Option<Url>)
    requires Shape(s) && ConfirmedMarked(s) && AwaitsUrl(s, c) && Shape(Settle(s, c, found))
    ensures ConfirmedMarked(Settle(s, c, found))
  {
    SettleSame(s, c, found);
    QuietMarks(s, Settle(s, c, found));
  }

  lemma ArriveMarks(s: Hub, c: nat, g: nat)
    requires Shape(s) && ConfirmedMarked(s) && At(s, c, Waiting) && g < |s.pool|
    requires s.pool[g].client == s.client[s.calls[c].entry] && Shape(Join(s, c, g)) && Shape(Arrive(s, c, g))
    ensures ConfirmedMarked(Arrive(s, c, g))
  {
    var joined := Join(s, c, g);
    JoinMarks(s, c, g);
    if joined.data[s.calls[c].entry].url.Some? {
      SettleMarks(joined, c, joined.data[s.calls[c].entry].url);
    }
  }

  lemma JoinExistingMarks(s: Hub, c: nat)
    requires Shape(s) && ConfirmedMarked(s) && Enabled(s, JoinExisting(c)) && Shape(JoinExistingStep(s, c))
    ensures ConfirmedMarked(JoinExistingStep(s, c))
  {
    ExistingJoinShape(s, c);
    ArriveMarks(s, c, s.groups[s.client[s.calls[c].entry]]);
  }

  lemma ResolvedMarks(s: Hub, c: nat, skipped: set<nat>, minted: nat)
    requires Shape(s) && ConfirmedMarked(s) && Enabled(s, Resolved(c, skipped, minted))
    requires Shape(ResolvedStep(s, c, skipped, minted))
    ensures ConfirmedMarked(ResolvedStep(s, c, skipped, minted))
  {
    ConsolidatedJoinShape(s, c, skipped, minted);
    ConsolidateMarks(s, c, skipped, minted);
    ArriveMarks(Consolidate(s, c, skipped, minted), c, |s.pool|);
  }

  lemma OtherMarks(s: Hub, e: Event)
    requires Shape(s) && ConfirmedMarked(s) && Shape(Step(s, e)) && IdsAgree(s) && !e.Traffic?
    ensures ConfirmedMarked(Step(s, e))
  {
    if Enabled(s, e) {
      match e
      case JoinExisting(c) => JoinExistingMarks(s, c);
      case Resolved(c, skipped, minted) => ResolvedMarks(s, c, skipped, minted);
      case Publish(c, source) => SettleMarks(s, c, UrlFound(s, c, source));
      case Register(c) => RegisterMarks(s, c);
      case Start(c, entry) => StartMarks(s, c, entry);
      case Resolve(c) => ResolveMarks(s, c);
      case Abandon(c) => AbandonMarks(s, c);
      case StopBegin(c) => StopBeginMarks(s, c);
      case StopEnd(c) => StopEndMarks(s, c);
    }
  }

  lemma TrafficMarksIff(s: Hub, id: nat)
    requires Shape(s) && IdsAgree(s) && StatusesTrue(s) && ConfirmedMarked(s)
    requires Enabled(s, Traffic(id)) && Shape(TrafficStep(s, id))
    ensures ConfirmedMarked(TrafficStep(s, id)) <==> !MissesMarks(s, Traffic(id))
  {
    if MissesMarks(s, Traffic(id)) {
      TrafficMisses(s, id);
    } else {
      TrafficMarks(s, id);
    }
  }

  /** Members of confirmed groups stay marked through a step, unless it is traffic that misses one. */
  lemma MarksKeptIff(s: Hub, e: Event)
    requires Shape(s) && IdsAgree(s) && StatusesTrue(s) && ConfirmedMarked(s) && Shape(Step(s, e))
    ensures ConfirmedMarked(Step(s, e)) <==> !MissesMarks(s, e)
  {
    if !e.Traffic? {
      OtherMarks(s, e);
    } else if Enabled(s, e) {
      TrafficMarksIff(s, e.id);
    }
  }

  // ---------------------------------------------------------------- setup issues

  lemma SettleRaises(s: Hub, c: nat, found: Option<Url>, g: nat)
    requires Shape(s) && ConfirmedMarked(s) && g < |s.pool| && s.pool[g].confirmed && AwaitsUrl(s, c)
    ensures var s' := Settle(s, c, found);
            g < |s'.pool| && s'.pool[g].confirmed && s'.pool[g].raised == s.pool[g].raised
  {
    assert ShapeOfCall(s, s.calls[c]);
  }

  lemma ArriveRaises(s: Hub, c: nat, h: nat, g: nat)
    requires Shape(s) && ConfirmedMarked(s) && g < |s.pool| && s.pool[g].confirmed
    requires At(s, c, Waiting) && h < |s.pool| && s.pool[h].client == s.client[s.calls[c].entry] && Shape(Join(s, c, h))
    ensures var s' := Arrive(s, c, h); g < |s'.pool| && s'.pool[g].confirmed && s'.pool[g].raised == s.pool[g].raised
  {
    var joined := Join(s, c, h);
    JoinMarks(s, c, h);
    if joined.data[s.calls[c].entry].url.Some? {
      SettleRaises(joined, c, joined.data[s.calls[c].entry].url, g);
    }
  }

  lemma ResolvedRaises(s: Hub, c: nat, skipped: set<nat>, minted: nat, g: nat)
    requires Shape(s) && ConfirmedMarked(s) && g < |s.pool| && s.pool[g].confirmed
    requires Enabled(s, Resolved(c, skipped, minted))
    ensures var s' := ResolvedStep(s, c, skipped, minted);
            g < |s'.pool| && s'.pool[g].confirmed && s'.pool[g].raised == s.pool[g].raised
  {
    ConsolidatedJoinShape(s, c, skipped, minted);
    ConsolidateMarks(s, c, skipped, minted);
    ArriveRaises(Consolidate(s, c, skipped, minted), c, |s.pool|, g);
  }

  lemma ExistingRaises(s: Hub, c: nat, g: nat)
    requires Shape(s) && ConfirmedMarked(s) && g < |s.pool| && s.pool[g].confirmed && Enabled(s, JoinExisting(c))
    ensures var s' := JoinExistingStep(s, c);
            g < |s'.pool| && s'.pool[g].confirmed && s'.pool[g].raised == s.pool[g].raised
  {
    ExistingJoinShape(s, c);
    ArriveRaises(s, c, s.groups[s.client[s.calls[c].entry]], g);
  }

  lemma OtherRaises(s: Hub, e: Event, g: nat)
    requires Shape(s) && g < |s.pool| && s.pool[g].confirmed && !e.Publish? && !e.JoinExisting? && !e.Resolved?
    ensures var s' := Step(s, e); g < |s'.pool| && s'.pool[g].confirmed && s'.pool[g].raised == s.pool[g].raised
  {
  }

  /** While confirmed groups' members are marked, a step raises no setup issue for a confirmed group, and the group
      stays confirmed. */
  lemma NoIssueOnceConfirmed(s: Hub, e: Event, g: nat)
    requires Shape(s) && ConfirmedMarked(s) && g < |s.pool| && s.pool[g].confirmed
    ensures var s' := Step(s, e); g < |s'.pool| && s'.pool[g].confirmed && s'.pool[g].raised == s.pool[g].raised
  {
    if !e.Publish? && !e.JoinExisting? && !e.Resolved? {
      OtherRaises(s, e, g);
    } else if Enabled(s, e) {
      match e
      case Publish(c, source) => SettleRaises(s, c, UrlFound(s, c, source), g);
      case JoinExisting(c) => ExistingRaises(s, c, g);
      case Resolved(c, skipped, minted) => ResolvedRaises(s, c, skipped, minted, g);
    }
  }

  // ---------------------------------------------------------------- no STOP before its call is finished

  lemma ArriveTimely(s: Hub, c: nat, g: nat)
    requires Sound(s, c) && g < |s.pool| && s.pool[g].client == s.client[s.calls[c].entry] && Timely(s)
    ensures Timely(Arrive(s, c, g))
  {
  }

  lemma ResolvedTimely(s: Hub, c: nat, skipped: set<nat>, minted: nat)
    requires Sound(s, c) && s.calls[c].stage.Resolving? && Listed(s) && Timely(s)
    ensures Timely(ResolvedStep(s, c, skipped, minted))
  {
    assert Timely(Consolidate(s, c, skipped, minted));
    ArriveTimely(Consolidate(s, c, skipped, minted), c, |s.pool|);
  }

  lemma OtherTimely(s: Hub, e: Event)
    requires Shape(s) && Timely(s) && !e.JoinExisting? && !e.Resolved?
    ensures Timely(Step(s, e))
  {
  }

  lemma TimelyStep(s: Hub, e: Event)
    requires Shape(s) && Timely(s)
    ensures Timely(Step(s, e))
  {
    if !e.JoinExisting? && !e.Resolved? {
      OtherTimely(s, e);
    } else if Enabled(s, e) {
      match e
      case JoinExisting(c) => ArriveTimely(s, c, s.groups[s.client[s.calls[c].entry]]);
      case Resolved(c, skipped, minted) => ResolvedTimely(s, c, skipped, minted);
    }
  }

  /** With no STOP before its call is finished, no step registers an orphan or stores a stale URL. */
  lemma TimelyIsSafe(s: Hub, e: Event)
    requires Core(s) && Timely(s) && UrlsCoherent(s) && !s.early
    ensures !RegistersOrphan(s, e) && !StoresStaleUrl(s, e)
  {
    if Enabled(s, e) && (e.Register? || e.Publish?) {
      assert ShapeOfCall(s, s.calls[e.call]);
      LiveIsAttached(s, e.call);
    }
  }

  lemma EarlyStays(s: Hub, e: Event)
    requires Shape(s) && s.early
    ensures Step(s, e).early
  {
  }

  lemma InitialCore(s: Hub)
    requires Initial(s)
    ensures Core(s) && Timely(s) && NoOrphans(s) && UrlsCoherent(s) && ConfirmedMarked(s)
  {
  }
}
