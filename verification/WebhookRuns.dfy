/** The shared webhook's safety over whole runs, with the events that break it named: exactly they do. */
module WebhookRuns {
  import opened Bytes
  import opened WebhookConsolidation
  import opened WebhookGroups
  import opened WebhookInvariants
  import opened WebhookSafety

  lemma StepShape(s: Hub, e: Event)
    requires Core(s)
    ensures Shape(Step(s, e))
  {
    CoreStep(s, e);
  }

  // ---------------------------------------------------------------- webhooks have owners

  /** No event of the run registers a webhook for a group that has left the dictionary. */
  ghost predicate OrphansNothing(s: Hub, events: seq<Event>)
    requires Core(s)
  {
    events == [] ||
    var rest, e := events[..|events| - 1], events[|events| - 1];
    OrphansNothing(s, rest) && !RegistersOrphan(Run(s, rest), e)
  }

  /** In every state of the run, every registered webhook has an owner. */
  ghost predicate OwnedThroughout(s: Hub, events: seq<Event>)
    requires Core(s)
  {
    NoOrphans(Run(s, events)) && (events == [] || OwnedThroughout(s, events[..|events| - 1]))
  }

  /** Every registered webhook has an owner throughout a run if and only if no event of it orphans one. */
  lemma {:induction false} OwnedRunIff(s: Hub, events: seq<Event>)
    requires Initial(s) && Core(s)
    ensures OwnedThroughout(s, events) <==> OrphansNothing(s, events)
  {
    if events == [] {
      InitialCore(s);
    } else {
      var rest := events[..|events| - 1];
      OwnedRunIff(s, rest);
      if OwnedThroughout(s, rest) {
        OwnersKeptIff(Run(s, rest), events[|events| - 1]);
      }
    }
  }

  // ---------------------------------------------------------------- stored URLs match stored ids

  /** No event of the run stores a URL fetched for an id that is not the entry's any more. */
  ghost predicate StoresNothingStale(s: Hub, events: seq<Event>)
    requires Core(s)
  {
    events == [] ||
    var rest, e := events[..|events| - 1], events[|events| - 1];
    StoresNothingStale(s, rest) && !StoresStaleUrl(Run(s, rest), e)
  }

  /** In every state of the run, every stored URL was made for the id beside it. */
  ghost predicate CoherentThroughout(s: Hub, events: seq<Event>)
    requires Core(s)
  {
    UrlsCoherent(Run(s, events)) && (events == [] || CoherentThroughout(s, events[..|events| - 1]))
  }

  lemma UrlsKeptNext(s: Hub, e: Event)
    requires Core(s) && UrlsCoherent(s)
    ensures Shape(Step(s, e)) && (UrlsCoherent(Step(s, e)) <==> !StoresStaleUrl(s, e))
  {
    StepShape(s, e);
    UrlsKeptIff(s, e);
  }

  /** Every stored URL matches its id throughout a run if and only if no event stores a stale one. */
  lemma {:induction false} CoherentRunIff(s: Hub, events: seq<Event>)
    requires Initial(s) && Core(s)
    ensures CoherentThroughout(s, events) <==> StoresNothingStale(s, events)
  {
    if events == [] {
      InitialCore(s);
    } else {
      var rest := events[..|events| - 1];
      CoherentRunIff(s, rest);
      if CoherentThroughout(s, rest) {
        UrlsKeptNext(Run(s, rest), events[|events| - 1]);
      }
    }
  }

  // ---------------------------------------------------------------- confirmed groups' members are marked

  /** No event of the run is traffic that confirms a group and misses a member. */
  ghost predicate MissesNothing(s: Hub, events: seq<Event>)
    requires Core(s)
  {
    events == [] ||
    var rest, e := events[..|events| - 1], events[|events| - 1];
    MissesNothing(s, rest) && !MissesMarks(Run(s, rest), e)
  }

  /** In every state of the run, every joined entry of a confirmed group is marked. */
  ghost predicate MarkedThroughout(s: Hub, events: seq<Event>)
    requires Core(s)
  {
    ConfirmedMarked(Run(s, events)) && (events == [] || MarkedThroughout(s, events[..|events| - 1]))
  }

  lemma MarksKeptNext(s: Hub, e: Event)
    requires Core(s) && ConfirmedMarked(s)
    ensures Shape(Step(s, e)) && (ConfirmedMarked(Step(s, e)) <==> !MissesMarks(s, e))
  {
    StepShape(s, e);
    MarksKeptIff(s, e);
  }

  /** Every joined entry of a confirmed group is marked throughout a run if and only if no traffic misses one. */
  lemma {:induction false} MarkedRunIff(s: Hub, events: seq<Event>)
    requires Initial(s) && Core(s)
    ensures MarkedThroughout(s, events) <==> MissesNothing(s, events)
  {
    if events == [] {
      InitialCore(s);
    } else {
      var rest := events[..|events| - 1];
      MarkedRunIff(s, rest);
      if MarkedThroughout(s, rest) {
        MarksKeptNext(Run(s, rest), events[|events| - 1]);
      }
    }
  }

  // ---------------------------------------------------------------- what is enough

  /** A run that orphans no webhook misses no mark. */
  lemma {:induction false} OwnedRunsMark(s: Hub, events: seq<Event>)
    requires Initial(s) && Core(s) && OrphansNothing(s, events)
    ensures MissesNothing(s, events)
  {
    if events != [] {
      var rest := events[..|events| - 1];
      OwnedRunsMark(s, rest);
      OwnedRunIff(s, rest);
      OwnedMissesNothing(Run(s, rest), events[|events| - 1]);
    }
  }

  lemma {:induction false} RunTimely(s: Hub, events: seq<Event>)
    requires Initial(s) && Core(s)
    ensures Timely(Run(s, events))
  {
    if events == [] {
      InitialCore(s);
    } else {
      RunTimely(s, events[..|events| - 1]);
      TimelyStep(Run(s, events[..|events| - 1]), events[|events| - 1]);
    }
  }

  lemma EarlyRemains(s: Hub, rest: seq<Event>, e: Event)
    requires Core(s) && Run(s, rest).early
    ensures Step(Run(s, rest), e).early
  {
    EarlyStays(Run(s, rest), e);
  }

  /** A run in which no STOP comes before its call is finished has none of the three events. */
  lemma {:induction false} TimelyRunsAreSafe(s: Hub, events: seq<Event>)
    requires Initial(s) && Core(s) && !Run(s, events).early
    ensures OrphansNothing(s, events) && StoresNothingStale(s, events) && MissesNothing(s, events)
  {
    if events != [] {
      var rest, e := events[..|events| - 1], events[|events| - 1];
      if Run(s, rest).early {
        EarlyRemains(s, rest, e);
      }
      TimelyRunsAreSafe(s, rest);
      CoherentRunIff(s, rest);
      RunTimely(s, rest);
      TimelyIsSafe(Run(s, rest), e);
    }
    OwnedRunsMark(s, events);
  }

  // ---------------------------------------------------------------- promises

  /** When every join has been undone no group is left, and no webhook either if and only if each had an owner. */
  lemma NothingLeftBehindIff(s: Hub, events: seq<Event>)
    requires Core(s) && forall c :: c in Run(s, events).calls ==> !Listens(Run(s, events).calls[c])
    ensures Run(s, events).groups == map[]
    ensures Run(s, events).registry == map[] <==> NoOrphans(Run(s, events))
  {
    var s' := Run(s, events);
    forall g: nat ensures !Attached(s', g) {
      if g < |s'.pool| {
        assert Live(s', g) == {};
      }
    }
    SomeGroupIsAttached(s');
    NobodyOwns(s');
  }

  lemma SomeGroupIsAttached(s: Hub)
    requires Shape(s)
    ensures s.groups != map[] ==> exists g: nat :: Attached(s, g)
  {
    if k :| k in s.groups {
      assert Attached(s, s.groups[k]);
    }
  }

  lemma NobodyOwns(s: Hub)
    requires forall g: nat :: !Attached(s, g)
    ensures NoOrphans(s) <==> s.registry == map[]
  {
    if id :| id in s.registry {
      assert !Owned(s, s.registry[id], id);
    }
  }

  /** So nothing is left behind by a run that orphans no webhook, early STOPs or not. */
  lemma NothingLeftBehind(s: Hub, events: seq<Event>)
    requires Initial(s) && Core(s) && OrphansNothing(s, events)
    requires forall c :: c in Run(s, events).calls ==> !Listens(Run(s, events).calls[c])
    ensures Run(s, events).groups == map[] && Run(s, events).registry == map[]
  {
    OwnedRunIff(s, events);
    NothingLeftBehindIff(s, events);
  }

  /** A confirmed group's members are marked, as long as no traffic missed one. */
  lemma MembersAreMarked(s: Hub, events: seq<Event>, c: nat)
    requires Initial(s) && Core(s) && MissesNothing(s, events)
    requires c in Run(s, events).calls && Run(s, events).calls[c].group.Some?
    ensures var s' := Run(s, events);
            var call := s'.calls[c];
            && call.group.value < |s'.pool| && call.entry in s'.data
            && (s'.pool[call.group.value].confirmed ==> Marked(s'.data[call.entry]))
  {
    MarkedRunIff(s, events);
    assert ShapeOfCall(Run(s, events), Run(s, events).calls[c]);
  }

  /** A group that is confirmed, and for which the setup issue was raised so many times. */
  ghost predicate ConfirmedAt(s: Hub, g: nat, raised: nat) {
    g < |s.pool| && s.pool[g].confirmed && s.pool[g].raised == raised
  }

  /** Once a group is confirmed it stays so and no setup issue is raised for it any more, as long as no traffic misses
      a member. */
  lemma {:induction false} NoIssueAgain(s: Hub, events: seq<Event>, n: nat, g: nat, raised: nat)
    requires Initial(s) && Core(s) && MissesNothing(s, events) && n <= |events|
    requires ConfirmedAt(Run(s, events[..n]), g, raised)
    ensures ConfirmedAt(Run(s, events), g, raised)
  {
    if n == |events| {
      assert events[..n] == events;
    } else {
      var rest := events[..|events| - 1];
      assert rest[..n] == events[..n];
      NoIssueAgain(s, rest, n, g, raised);
      NoIssueAtLast(s, events, g, raised);
    }
  }

  lemma NoIssueAtLast(s: Hub, events: seq<Event>, g: nat, raised: nat)
    requires Initial(s) && Core(s) && events != [] && MissesNothing(s, events)
    requires ConfirmedAt(Run(s, events[..|events| - 1]), g, raised)
    ensures ConfirmedAt(Run(s, events), g, raised)
  {
    var before, e := Run(s, events[..|events| - 1]), events[|events| - 1];
    MarkedRunIff(s, events[..|events| - 1]);
    NoIssueNext(before, e, g, raised);
  }

  lemma NoIssueNext(s: Hub, e: Event, g: nat, raised: nat)
    requires Core(s) && ConfirmedMarked(s) && ConfirmedAt(s, g, raised)
    ensures ConfirmedAt(Step(s, e), g, raised)
  {
    NoIssueOnceConfirmed(s, e, g);
  }
}
