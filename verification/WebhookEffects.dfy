/** What each step of the shared webhook changes and what it leaves alone, told without the code. */
module WebhookEffects {
  import opened Bytes
  import opened WebhookConsolidation
  import opened WebhookGroups
  import opened WebhookInvariants
  import opened WebhookSafety
  import opened WebhookIds

  // ---------------------------------------------------------------- who is consolidated

  /** The runner, and every entry of its application whose lookup does not fail. */
  lemma {:induction false} MemberIff(s: Hub, entries: seq<nat>, runner: nat, skipped: set<nat>, e: nat)
    ensures e in Members(s, entries, runner, skipped)
       <==> e in entries
            && (e == runner
                || (e !in skipped && e in s.client && runner in s.client && s.client[e] == s.client[runner]))
  {
    if entries != [] {
      MemberIff(s, entries[1..], runner, skipped, e);
      assert entries == [entries[0]] + entries[1..];
    }
  }

  /** They are listed in the order of the entries. */
  lemma {:induction false} MembersInOrder(s: Hub, a: seq<nat>, b: seq<nat>, runner: nat, skipped: set<nat>)
    ensures Members(s, a + b, runner, skipped) == Members(s, a, runner, skipped) + Members(s, b, runner, skipped)
  {
    if a == [] {
      assert a + b == b;
    } else {
      assert (a + b)[1..] == a[1..] + b;
      MembersInOrder(s, a[1..], b, runner, skipped);
    }
  }

  /** Listing the members ends with all of them, and nobody else, holding one id; the URL stays where that was the id
      before and is gone elsewhere; statuses change only to the confirmed one. */
  lemma ConsolidateEffects(s: Hub, c: nat, skipped: set<nat>, minted: nat, e: nat)
    requires Shape(s) && Enabled(s, Resolved(c, skipped, minted)) && e in s.data
    ensures var s', members := Consolidate(s, c, skipped, minted), Members(s, s.entries, s.calls[c].entry, skipped);
            var choice := Choose(DataOf(s, members), minted);
            && s'.data.Keys == s.data.Keys
            && (e in members ==>
                  && s'.data[e].webhookId == Some(choice.id)
                  && s'.data[e].url == (if s.data[e].webhookId == Some(choice.id) then s.data[e].url else None)
                  && s'.data[e].status == (if choice.confirmed then Some(true) else s.data[e].status))
            && (e !in members ==> s'.data[e] == s.data[e])
            && s'.pool
               == s.pool + [Group(choice.id, 0, false, choice.confirmed, false, s.client[s.calls[c].entry], 0, 0)]
  {
  }

  // ---------------------------------------------------------------- joining

  /** Joining counts the call in, brings its entry into line with the group, and sets up its STOP listener; with the
      entry's URL made for the group's id it goes on to the registration, and else asks for one. */
  lemma JoinEffects(s: Hub, c: nat)
    requires Shape(s) && Enabled(s, JoinExisting(c))
    ensures var s', entry := Step(s, JoinExisting(c)), s.calls[c].entry;
            && entry in s.data && entry in s.client && s.client[entry] in s.groups
            && s.groups[s.client[entry]] < |s.pool|
            && var g := s.groups[s.client[entry]];
               var group, d := s.pool[g], s.data[entry];
               && |s'.pool| == |s.pool| && s'.pool[g].refcount == group.refcount + 1
               && (forall e :: e in s.data && e != entry ==> e in s'.data && s'.data[e] == s.data[e])
               && entry in s'.data && s'.data[entry].webhookId == Some(group.webhookId)
               && s'.data[entry].url == (if d.webhookId == Some(group.webhookId) then d.url else None)
               && s'.data[entry].status == (if group.confirmed then Some(true) else d.status)
               && c in s'.calls && s'.calls[c].group == Some(g) && s'.calls[c].stop == Listening
               && s'.calls[c].entry == entry
               && s'.calls[c].stage == (if d.webhookId == Some(group.webhookId) && d.url.Some? then WaitingToRegister
                                        else GettingUrl(group.webhookId))
  {
    assert ShapeOfCall(s, s.calls[c]);
  }

  // ---------------------------------------------------------------- URLs and registration

  /** A call that has asked for its URL stores what it got, the cloud's for the id asked for or a local one for the id
      the entry has, and goes on to the registration; without one it gives up. No other entry changes. */
  lemma PublishEffects(s: Hub, c: nat, source: Source)
    requires Shape(s) && Enabled(s, Publish(c, source))
    ensures var s', entry := Step(s, Publish(c, source)), s.calls[c].entry;
            && entry in s.data && s'.data.Keys == s.data.Keys && c in s'.calls
            && (forall e :: e in s.data && e != entry ==> s'.data[e] == s.data[e])
            && (source.NoUrl? ==> s'.data == s.data && s'.calls[c].stage == Finished(false) && s'.issues == s.issues)
            && (!source.NoUrl? ==>
                  && s'.calls[c].stage == WaitingToRegister
                  && s'.data[entry].webhookId == s.data[entry].webhookId
                  && s'.data[entry].status == s.data[entry].status
                  && (source.CloudUrl? ==> s'.data[entry].url == Some(Url(s.calls[c].stage.asked, source.base)))
                  && (source.LocalUrl? && s.data[entry].webhookId.Some? ==>
                        s'.data[entry].url == Some(Url(s.data[entry].webhookId.value, source.base))))
  {
    assert ShapeOfCall(s, s.calls[c]);
  }

  /** A call that registers does so for its group's id, unless that was done before, and is through. */
  lemma RegisterEffects(s: Hub, c: nat)
    requires Shape(s) && Enabled(s, Register(c))
    ensures var s' := Step(s, Register(c));
            && s.calls[c].group.Some? && s.calls[c].group.value < |s.pool| && c in s'.calls && |s'.pool| == |s.pool|
            && var group := s.pool[s.calls[c].group.value];
               && s'.calls[c].stage == Finished(true) && s'.pool[s.calls[c].group.value].registered
               && (group.registered ==> s'.registry == s.registry)
               && (!group.registered ==>
                     && group.webhookId in s'.registry && s'.registry[group.webhookId] == c
                     && forall id :: id != group.webhookId ==>
                          (id in s'.registry <==> id in s.registry)
                          && (id in s.registry ==> s'.registry[id] == s.registry[id]))
  {
    assert ShapeOfCall(s, s.calls[c]);
  }

  // ---------------------------------------------------------------- leaving

  /** A STOP callback remembers its entry's id; once it has the lock it counts one member out, and takes group and
      webhook away with the last, or the webhook it remembers if there is no group any more. */
  lemma StopEffects(s: Hub, c: nat)
    requires Shape(s)
    ensures Enabled(s, StopBegin(c)) && s.data[s.calls[c].entry].webhookId.Some? ==>
              Step(s, StopBegin(c)).calls[c].stop == Stopping(s.data[s.calls[c].entry].webhookId.value)
    ensures Enabled(s, StopEnd(c)) ==>
              var s', id, k := Step(s, StopEnd(c)), s.calls[c].stop.webhookId, s.client[s.calls[c].entry];
              && s'.calls[c].stop == Stopped && |s'.pool| == |s.pool|
              && (k in s.groups ==> s'.pool[s.groups[k]].refcount == s.pool[s.groups[k]].refcount - 1)
              && (k in s.groups && s.pool[s.groups[k]].refcount > 1 ==>
                    s'.groups == s.groups && s'.registry == s.registry)
              && (k in s.groups && s.pool[s.groups[k]].refcount <= 1 ==>
                    s'.groups == s.groups - {k} && s'.registry == s.registry - {id})
              && (k !in s.groups ==> s'.groups == s.groups && s'.registry == s.registry - {id})
  {
    if c in s.calls {
      assert ShapeOfCall(s, s.calls[c]);
    }
  }
}
