/** The webhook code over its own objects: config entries, group objects and dictionaries changed in place,
    each piece between two suspension points proved to be one step of the transition system. */
module WebhookHandler {
  import opened Bytes
  import opened WebhookConsolidation
  import opened WebhookGroups
  import opened WebhookInvariants

  class WebhookGroup {
    const webhookId: nat
    var refcount: int
    var registered: bool
    var confirmed: bool
    var issueRaised: bool

    constructor (webhookId: nat, confirmed: bool)
      ensures this.webhookId == webhookId && refcount == 0 && !registered && this.confirmed == confirmed && !issueRaised
    {
      this.webhookId, this.confirmed := webhookId, confirmed;
      refcount, registered, issueRaised := 0, false, false;
    }

    predicate Is(g: Group)
      reads this
    {
      && webhookId == g.webhookId && refcount == g.refcount && registered == g.registered
      && confirmed == g.confirmed && issueRaised == g.issueRaised
    }
  }

  class HomeAssistant {
    const entries: seq<nat>
    const client: map<nat, nat>
    var data: map<nat, EntryData>
    var groups: map<nat, WebhookGroup>
    var registry: map<nat, nat>
    var issues: set<nat>

    /** Every group object ever made. */
    ghost var pool: seq<WebhookGroup>

    /** These objects are in state `s` of the transition system. */
    ghost predicate Models(s: Hub)
      reads this, pool
    {
      && s.entries == entries && s.client == client
      && s.data == data && s.registry == registry && s.issues == issues
      && ModelsGroups(s)
    }

    ghost predicate ModelsGroups(s: Hub)
      reads this, pool
    {
      && |pool| == |s.pool|
      && (forall i :: 0 <= i < |pool| ==> pool[i].Is(s.pool[i]))
      && (forall i, j :: 0 <= i < j < |pool| ==> pool[i] != pool[j])
      && groups.Keys == s.groups.Keys
      && (forall k :: k in groups ==> s.groups[k] < |pool| && groups[k] == pool[s.groups[k]])
    }

    // -------------------------------------------------------------- consolidation

    /** The ids the members have, and those that have received traffic. */
    method CollectIds(ghost s: Hub, members: seq<nat>) returns (existing: set<nat>, confirmedIds: set<nat>)
      requires data == s.data && forall e :: e in members ==> e in data
      ensures existing == Existing(DataOf(s, members))
      ensures confirmedIds == ConfirmedIds(DataOf(s, members))
    {
      existing, confirmedIds := {}, {};
      ghost var ds := DataOf(s, members);
      for i := 0 to |members|
        invariant forall id :: id in existing <==> exists j :: 0 <= j < i && ds[j].webhookId == Some(id)
        invariant forall id :: id in confirmedIds <==>
                    exists j :: 0 <= j < i && Marked(ds[j]) && ds[j].webhookId == Some(id)
      {
        var d := data[members[i]];
        if d.webhookId.Some? {
          existing := existing + {d.webhookId.value};
          if d.status.Some? && d.status.value {
            confirmedIds := confirmedIds + {d.webhookId.value};
          }
        }
      }
      assert forall id :: id in Existing(ds) <==> exists j :: 0 <= j < |ds| && ds[j].webhookId == Some(id);
      assert forall id :: id in ConfirmedIds(ds) <==>
               exists j :: 0 <= j < |ds| && Marked(ds[j]) && ds[j].webhookId == Some(id);
    }

    /** The id of the first member that has one. */
    method FirstStoredId(ghost s: Hub, members: seq<nat>) returns (id: nat)
      requires data == s.data && (forall e :: e in members ==> e in data) && Existing(DataOf(s, members)) != {}
      ensures FirstId(DataOf(s, members), false) == Some(id)
    {
      ghost var ds := DataOf(s, members);
      FirstIdIsStored(ds);
      assert ds[0..] == ds;
      id := 0;
      for i := 0 to |members|
        invariant FirstId(ds[i..], false) == FirstId(ds, false)
      {
        if data[members[i]].webhookId.Some? {
          return data[members[i]].webhookId.value;
        }
      }
    }

    /** The id the members will share, and whether it is known to work. */
    method ChooseId(ghost s: Hub, members: seq<nat>, minted: nat) returns (choice: Choice)
      requires data == s.data && forall e :: e in members ==> e in data
      ensures choice == Choose(DataOf(s, members), minted)
    {
      ghost var ds := DataOf(s, members);
      FirstIdIsStored(ds);
      var existing, confirmedIds := CollectIds(s, members);
      var canonical, ambiguous := minted, false;
      if existing == {} {
      } else if |existing| == 1 {
        canonical :| canonical in existing;
        SingletonElement(existing, canonical, FirstId(ds, false).value);
      } else if |confirmedIds| == 1 {
        canonical :| canonical in confirmedIds;
        SingletonElement(confirmedIds, canonical, FirstId(ds, true).value);
      } else {
        canonical := FirstStoredId(s, members);
        ambiguous := true;
      }
      choice := Choice(canonical, !ambiguous && canonical in confirmedIds, ambiguous);
      assert ConfirmedIds(ds) <= Existing(ds);
    }

    /** Bring every member's data into line with the choice. */
    method AdoptChoice(members: seq<nat>, choice: Choice)
      requires forall e :: e in members ==> e in data
      modifies this`data
      ensures data == map e | e in old(data) ::
                        if e in members then Adopt(old(data)[e], choice.id, choice.confirmed) else old(data)[e]
    {
      for i := 0 to |members|
        invariant data.Keys == old(data).Keys
        invariant forall e :: e in data ==>
                    data[e] == if e in members[..i] then Adopt(old(data)[e], choice.id, choice.confirmed)
                          else old(data)[e]
      {
        var d, changed := data[members[i]], false;
        if d.webhookId != Some(choice.id) {
          d, changed := d.(webhookId := Some(choice.id), url := None), true;
        }
        if choice.confirmed && !(d.status.Some? && d.status.value) {
          d, changed := d.(status := Some(true)), true;
        }
        if changed {
          data := data[members[i] := d];
        }
      }
      assert members[..|members|] == members;
    }

    // -------------------------------------------------------------- joining

    /** Adopt the group's id and verdict onto one entry. */
    method SyncEntryToGroup(entry: nat, group: WebhookGroup)
      requires entry in data
      modifies this`data
      ensures data == old(data)[entry := Adopt(old(data)[entry], group.webhookId, group.confirmed)]
    {
      var d := data[entry];
      if d.webhookId != Some(group.webhookId) {
        d := d.(webhookId := Some(group.webhookId), url := None);
      }
      if group.confirmed && !(d.status.Some? && d.status.value) {
        d := d.(status := Some(true));
      }
      data := data[entry := d];
    }

    /** Count one more member and bring its entry into line. */
    method JoinGroup(ghost s: Hub, ghost c: nat, entry: nat) returns (group: WebhookGroup)
      requires Models(s) && Sound(s, c) && s.calls[c].entry == entry && client[entry] in groups
      modifies this`data, groups[client[entry]]
      ensures Models(Join(s, c, s.groups[client[entry]])) && group == groups[client[entry]]
    {
      ghost var g := s.groups[client[entry]];
      group := groups[client[entry]];
      group.refcount := group.refcount + 1;
      SyncEntryToGroup(entry, group);
    }

    /** Ask the user to register the group's webhook. */
    method RaiseSetupIssue(ghost s: Hub, ghost g: nat, entry: nat, group: WebhookGroup)
      requires ModelsGroups(s) && g < |s.pool| && group == pool[g] && entry in client
      modifies this`issues, group`issueRaised
      ensures ModelsGroups(s.(pool := s.pool[g := s.pool[g].(issueRaised := true, raised := s.pool[g].raised + 1)]))
      ensures issues == old(issues) + {client[entry]}
    {
      issues := issues + {client[entry]};
      group.issueRaised := true;
    }

    /** Store the URL and, once per group, ask the user to register it. */
    method Publish(ghost s: Hub, ghost c: nat, entry: nat, group: WebhookGroup, found: Option<Url>)
      requires Models(s) && Sound(s, c) && AwaitsUrl(s, c) && s.calls[c].entry == entry
      requires group == pool[s.calls[c].group.value]
      modifies this`data, this`issues, group`issueRaised
      ensures Models(Settle(s, c, found))
    {
      if found.Some? {
        data := data[entry := data[entry].(url := found)];
        if data[entry].status.None? && !group.issueRaised {
          RaiseSetupIssue(s, s.calls[c].group.value, entry, group);
        }
      }
    }

    /** Join, and with a URL stored go straight on with it. */
    method JoinAndGoOn(ghost s: Hub, ghost c: nat, entry: nat) returns (group: WebhookGroup)
      requires Models(s) && Sound(s, c) && s.calls[c].entry == entry && client[entry] in groups
      requires s.pool[s.groups[client[entry]]].client == client[entry]
      modifies this`data, this`issues, groups[client[entry]]
      ensures Models(Arrive(s, c, s.groups[client[entry]])) && group == groups[client[entry]]
    {
      group := JoinGroup(s, c, entry);
      if data[entry].url.Some? {
        Publish(Join(s, c, s.groups[client[entry]]), c, entry, group, data[entry].url);
      }
    }

    /** The groups lock is free and the group is there. */
    method JoinExisting(ghost s: Hub, ghost c: nat, entry: nat) returns (group: WebhookGroup)
      requires Models(s) && Shape(s) && Enabled(s, Event.JoinExisting(c)) && s.calls[c].entry == entry
      requires client[entry] in groups
      modifies this`data, this`issues, groups[client[entry]]
      ensures Models(JoinExistingStep(s, c)) && group == groups[client[entry]]
    {
      group := JoinAndGoOn(s, c, entry);
    }

    /** Choose the members' id and bring their data into line with it. */
    method ChooseMembersId(ghost s: Hub, ghost c: nat, entry: nat, ghost skipped: set<nat>, members: seq<nat>,
            minted: nat)
      returns (choice: Choice)
      requires data == s.data && Shape(s) && Enabled(s, Resolved(c, skipped, minted)) && s.calls[c].entry == entry
      requires members == Members(s, s.entries, entry, skipped)
      modifies this`data
      ensures data == Consolidate(s, c, skipped, minted).data && choice == Choose(DataOf(s, members), minted)
    {
      choice := ChooseId(s, members, minted);
      AdoptChoice(members, choice);
    }

    /** A new group object in the dictionary, as the transition system adds it. */
    method AddGroup(ghost s: Hub, k: nat, choice: Choice)
      requires ModelsGroups(s)
      modifies this`groups, this`pool
      ensures ModelsGroups(s.(pool := s.pool + [NewGroup(choice, k)], groups := s.groups[k := |s.pool|]))
      ensures k in groups && fresh(groups[k])
    {
      var group := new WebhookGroup(choice.id, choice.confirmed);
      groups := groups[k := group];
      pool := pool + [group];
      assert forall i :: 0 <= i < |s.pool| ==> pool[i] == old(pool)[i] && pool[i].Is(s.pool[i]);
    }

    /** The members have been listed and there is no group: choose their id and make the group. */
    method MakeGroup(ghost s: Hub, ghost c: nat, entry: nat, ghost skipped: set<nat>, members: seq<nat>, minted: nat)
      requires Models(s) && Shape(s) && Enabled(s, Resolved(c, skipped, minted)) && s.calls[c].entry == entry
      requires members == Members(s, entries, entry, skipped)
      modifies this`data, this`groups, this`pool
      ensures Models(Consolidate(s, c, skipped, minted)) && client[entry] in groups && fresh(groups[client[entry]])
    {
      var choice := ChooseMembersId(s, c, entry, skipped, members, minted);
      AddGroup(s, client[entry], choice);
    }

    /** Make the group and join it. */
    method MakeAndJoin(ghost s: Hub, ghost c: nat, entry: nat, ghost skipped: set<nat>, members: seq<nat>, minted: nat)
      returns (group: WebhookGroup)
      requires Models(s) && Shape(s) && Enabled(s, Resolved(c, skipped, minted)) && s.calls[c].entry == entry
      requires members == Members(s, entries, entry, skipped)
      modifies this`data, this`issues, this`groups, this`pool
      ensures Models(ResolvedStep(s, c, skipped, minted)) && client[entry] in groups && group == groups[client[entry]]
    {
      MakeGroup(s, c, entry, skipped, members, minted);
      ConsolidateShape(s, c, skipped, minted);
      group := JoinAndGoOn(Consolidate(s, c, skipped, minted), c, entry);
    }

    // -------------------------------------------------------------- registering, traffic

    /** Register the group's webhook unless that has been done. */
    method Register(ghost s: Hub, c: nat, group: WebhookGroup)
      requires Models(s) && Sound(s, c) && s.calls[c].stage.WaitingToRegister? && group == pool[s.calls[c].group.value]
      modifies this`registry, group`registered
      ensures Models(RegisterStep(s, c))
    {
      if !group.registered {
        registry := (registry - {group.webhookId})[group.webhookId := c];
        group.registered := true;
      }
    }

    /** Give a status to every entry that has this id and none. */
    method MarkSiblings(webhookId: Option<nat>)
      requires data.Keys == set e | e in entries
      modifies this`data
      ensures data == map e | e in old(data) :: Confirm(old(data)[e], webhookId)
    {
      for i := 0 to |entries|
        invariant data.Keys == old(data).Keys
        invariant forall e :: e in data ==>
                    data[e] == if e in entries[..i] then Confirm(old(data)[e], webhookId) else old(data)[e]
      {
        var d := data[entries[i]];
        if d.webhookId == webhookId && d.status.None? {
          data := data[entries[i] := d.(status := Some(true))];
        }
      }
      assert entries[..|entries|] == entries;
    }

    /** The application's group, if it is there, is confirmed. */
    method ConfirmGroup(ghost s: Hub, k: nat)
      requires ModelsGroups(s) && (k in s.groups ==> s.groups[k] < |s.pool|)
      modifies if k in groups then {groups[k]} else {}
      ensures k !in s.groups ==> ModelsGroups(s)
      ensures k in s.groups ==>
                ModelsGroups(s.(pool := s.pool[s.groups[k] := s.pool[s.groups[k]].(confirmed := true)]))
    {
      if k in groups {
        groups[k].confirmed := true;
      }
    }

    /** The webhook works: mark everyone with the entry's id and confirm its application's group. */
    method ResolveSetupIssue(ghost s: Hub, ghost id: nat, entry: nat)
      requires Models(s) && id in s.registry && Sound(s, s.registry[id]) && entry == s.calls[s.registry[id]].entry
      requires s.data.Keys == (set e | e in s.entries) && s.data[entry].status.None?
      modifies this`data, this`issues, if client[entry] in groups then {groups[client[entry]]} else {}
      ensures Models(TrafficStep(s, id))
    {
      MarkSiblings(data[entry].webhookId);
      ConfirmGroup(s, client[entry]);
      issues := issues - {client[entry]};
    }

    /** Traffic for an entry; the first it hears is the proof that its webhook works. */
    method HandleWebhook(ghost s: Hub, ghost id: nat, entry: nat)
      requires Models(s) && id in s.registry && Sound(s, s.registry[id]) && entry == s.calls[s.registry[id]].entry
      requires s.data.Keys == set e | e in s.entries
      modifies this`data, this`issues, if client[entry] in groups then {groups[client[entry]]} else {}
      ensures Models(TrafficStep(s, id))
    {
      if data[entry].status.None? {
        ResolveSetupIssue(s, id, entry);
      }
    }

    // -------------------------------------------------------------- leaving

    /** One member fewer. */
    method CountDown(ghost s: Hub, k: nat)
      requires ModelsGroups(s) && k in s.groups
      modifies groups[k]
      ensures var g := s.groups[k];
              ModelsGroups(s.(pool := s.pool[g := s.pool[g].(refcount := s.pool[g].refcount - 1)]))
    {
      groups[k].refcount := groups[k].refcount - 1;
    }

    /** With the lock: one member fewer, and no group after the last one. */
    method Leave(ghost s: Hub, ghost c: nat, k: nat) returns (last: bool)
      requires ModelsGroups(s) && Sound(s, c) && s.calls[c].stop.Stopping? && s.client[s.calls[c].entry] == k
      modifies this`groups, if k in groups then {groups[k]} else {}
      ensures ModelsGroups(StopEndStep(s, c))
      ensures last <==> (k in s.groups ==> s.pool[s.groups[k]].refcount <= 1)
    {
      last := true;
      if k in groups {
        CountDown(s, k);
        last := groups[k].refcount <= 0;
        if last {
          groups := groups - {k};
        }
      }
    }

    /** The STOP callback: the last member out takes the webhook with it. */
    method Unregister(ghost s: Hub, ghost c: nat, entry: nat, webhookId: nat)
      requires Models(s) && Sound(s, c) && s.calls[c].entry == entry
      requires s.calls[c].stop == Stopping(webhookId)
      modifies this`groups, this`registry, if client[entry] in groups then {groups[client[entry]]} else {}
      ensures Models(StopEndStep(s, c))
    {
      var last := Leave(s, c, client[entry]);
      if last {
        registry := registry - {webhookId};
      }
    }
  }
}
