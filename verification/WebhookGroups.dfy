/** Config entries sharing one webhook through a counted group: every interleaving of the coroutines that
    join it, look up its URL, register it, receive its traffic and leave it again. */
module WebhookGroups {
  import opened Bytes
  import opened WebhookConsolidation

  /** The shared webhook of one developer application. `client`, `raised` and `registrations` are history:
      whose group it is, how often its setup issue was raised, how often its webhook was registered. */
  datatype Group = Group(
    webhookId: nat, refcount: int, registered: bool, confirmed: bool, issueRaised: bool,
    client: nat, raised: nat, registrations: nat)

  /** Where a call of `register_webhook` stands between two suspension points. */
  datatype Stage =
    | Waiting                                   // for the groups lock
    | Resolving                                 // holding the lock, listing the members
    | GettingUrl(asked: nat)                    // joined, with no URL stored; one is asked for this id
    | WaitingToRegister                         // for the lock again
    | Finished(complete: bool)                  // to the end, or given up on the way

  /** Where its STOP listener stands. */
  datatype Stop = NotListening | Listening | Stopping(webhookId: nat) | Stopped

  datatype Call = Call(entry: nat, stage: Stage, group: Option<nat>, stop: Stop)

  /** Home Assistant as the webhook code sees it: the entries in order, whose application each belongs to and
      its data, every group object ever made and those in the groups dictionary, the groups lock, the webhooks
      registered and by which call's handler, the open setup issues. `early` is history: a STOP was delivered
      to a call that had joined and not finished. */
  datatype Hub = Hub(
    entries: seq<nat>, client: map<nat, nat>, data: map<nat, EntryData>,
    pool: seq<Group>, groups: map<nat, nat>, lock: Option<nat>, calls: map<nat, Call>,
    registry: map<nat, nat>, issues: set<nat>, early: bool)

  datatype Source = CloudUrl(base: nat) | LocalUrl(base: nat) | NoUrl

  datatype Event =
    | Start(call: nat, entry: nat)
    | Resolve(call: nat)
    | Resolved(call: nat, skipped: set<nat>, minted: nat)
    | JoinExisting(call: nat)
    | Publish(call: nat, source: Source)
    | Register(call: nat)
    | Traffic(id: nat)
    | StopBegin(call: nat)
    | StopEnd(call: nat)
    | Abandon(call: nat)

  predicate At(s: Hub, c: nat, stage: Stage) {
    c in s.calls && s.calls[c].stage == stage
  }

  predicate HasGroup(s: Hub, c: nat) {
    c in s.calls && s.calls[c].entry in s.client && s.client[s.calls[c].entry] in s.groups
  }

  /** The id is new: no entry and no group has it. */
  predicate Unused(s: Hub, id: nat) {
    && (forall e :: e in s.data ==> s.data[e].webhookId != Some(id))
    && (forall g :: 0 <= g < |s.pool| ==> s.pool[g].webhookId != id)
  }

  predicate Enabled(s: Hub, e: Event) {
    match e
    case Start(c, entry) => c !in s.calls && entry in s.data
    case Resolve(c) => At(s, c, Waiting) && s.lock.None? && !HasGroup(s, c)
    case Resolved(c, _, minted) => At(s, c, Resolving) && s.lock == Some(c) && Unused(s, minted)
    case JoinExisting(c) => At(s, c, Waiting) && s.lock.None? && HasGroup(s, c)
    case Publish(c, _) => AwaitsUrl(s, c)
    case Register(c) => At(s, c, WaitingToRegister) && s.lock.None?
    case Traffic(id) => id in s.registry
    case StopBegin(c) => c in s.calls && s.calls[c].stop.Listening?
    case StopEnd(c) => c in s.calls && s.calls[c].stop.Stopping? && s.lock.None?
    case Abandon(c) => c in s.calls && !s.calls[c].stage.Finished?
  }

  // ---------------------------------------------------------------- the steps

  /** What a call's step needs to find: its entry, its group, its application's group. */
  predicate Sound(s: Hub, c: nat) {
    && c in s.calls && ShapeOfCall(s, s.calls[c])
    && (s.client[s.calls[c].entry] in s.groups ==> s.groups[s.client[s.calls[c].entry]] < |s.pool|)
  }

  /** The entries the runner shares its application with, in order; the lookup of `skipped` ones fails. */
  function Members(s: Hub, entries: seq<nat>, runner: nat, skipped: set<nat>): (members: seq<nat>)
    ensures forall e :: e in members ==> e in entries
  {
    if entries == [] then []
    else
      var rest := Members(s, entries[1..], runner, skipped);
      if IsMember(s, entries[0], runner, skipped) then [entries[0]] + rest else rest
  }

  predicate IsMember(s: Hub, e: nat, runner: nat, skipped: set<nat>) {
    e == runner || (e !in skipped && e in s.client && runner in s.client && s.client[e] == s.client[runner])
  }

  function DataOf(s: Hub, members: seq<nat>): (ds: seq<EntryData>)
    requires forall e :: e in members ==> e in s.data
    ensures |ds| == |members| && forall i :: 0 <= i < |ds| ==> ds[i] == s.data[members[i]]
  {
    seq(|members|, i requires 0 <= i < |members| => s.data[members[i]])
  }

  function AdoptMembers(s: Hub, members: seq<nat>, choice: Choice): map<nat, EntryData> {
    map e | e in s.data :: if e in members then Adopt(s.data[e], choice.id, choice.confirmed) else s.data[e]
  }

  /** One more member: counted, its entry brought into line, its STOP listener set up, its URL yet to be got. */
  function Join(s: Hub, c: nat, g: nat): Hub
    requires c in s.calls && s.calls[c].entry in s.data && g < |s.pool|
  {
    var grp := s.pool[g].(refcount := s.pool[g].refcount + 1);
    var e := s.calls[c].entry;
    var d := Adopt(s.data[e], grp.webhookId, grp.confirmed);
    s.(pool := s.pool[g := grp],
       data := s.data[e := d],
       calls := s.calls[c := Call(e, GettingUrl(grp.webhookId), Some(g), Listening)])
  }

  predicate AwaitsUrl(s: Hub, c: nat) {
    c in s.calls && s.calls[c].stage.GettingUrl?
  }

  predicate RaisesIssue(s: Hub, c: nat, found: Option<Url>)
    requires Sound(s, c) && AwaitsUrl(s, c)
  {
    && found.Some?
    && s.data[s.calls[c].entry].status.None?
    && !s.pool[s.calls[c].group.value].issueRaised
  }

  /** The URL found is stored and, once per group, the user asked to register it; with none found the call gives
      up. */
  function Settle(s: Hub, c: nat, found: Option<Url>): Hub
    requires Sound(s, c) && AwaitsUrl(s, c)
  {
    var call, g := s.calls[c], s.calls[c].group.value;
    var raises := RaisesIssue(s, c, found);
    s.(calls := s.calls[c := call.(stage := if found.None? then Finished(false) else WaitingToRegister)],
       data := if found.None? then s.data else s.data[call.entry := s.data[call.entry].(url := found)],
       pool := if raises then s.pool[g := s.pool[g].(issueRaised := true, raised := s.pool[g].raised + 1)] else s.pool,
       issues := if raises then s.issues + {s.pool[g].client} else s.issues)
  }

  /** A call joins; with a URL stored it goes straight on to the next lock, as getting that one does not suspend. */
  function Arrive(s: Hub, c: nat, g: nat): Hub
    requires Sound(s, c) && g < |s.pool| && s.pool[g].client == s.client[s.calls[c].entry]
  {
    var joined := Join(s, c, g);
    var url := joined.data[s.calls[c].entry].url;
    if url.Some? then Settle(joined, c, url) else joined
  }

  function NewGroup(choice: Choice, client: nat): Group {
    Group(choice.id, 0, false, choice.confirmed, false, client, 0, 0)
  }

  predicate Listed(s: Hub) {
    forall e :: e in s.entries ==> e in s.data
  }

  /** The members brought into line with the choice and a group object made for it; the lock is free again. */
  function Consolidate(s: Hub, c: nat, skipped: set<nat>, minted: nat): Hub
    requires Sound(s, c) && Listed(s)
  {
    var runner := s.calls[c].entry;
    var members := Members(s, s.entries, runner, skipped);
    var choice := Choose(DataOf(s, members), minted);
    var client := s.client[runner];
    s.(data := AdoptMembers(s, members, choice),
       pool := s.pool + [NewGroup(choice, client)],
       groups := s.groups[client := |s.pool|],
       lock := None,
       calls := s.calls[c := s.calls[c].(stage := Waiting)])
  }

  function ResolvedStep(s: Hub, c: nat, skipped: set<nat>, minted: nat): Hub
    requires Sound(s, c) && s.calls[c].stage.Resolving? && Listed(s)
  {
    Arrive(Consolidate(s, c, skipped, minted), c, |s.pool|)
  }

  function JoinExistingStep(s: Hub, c: nat): Hub
    requires Sound(s, c) && HasGroup(s, c)
    requires s.pool[s.groups[s.client[s.calls[c].entry]]].client == s.client[s.calls[c].entry]
  {
    Arrive(s, c, s.groups[s.client[s.calls[c].entry]])
  }

  /** What asking for a URL gives, once the call runs on. */
  function UrlFound(s: Hub, c: nat, source: Source): Option<Url>
    requires AwaitsUrl(s, c) && s.calls[c].entry in s.data
  {
    match source
    case CloudUrl(base) => Some(Url(s.calls[c].stage.asked, base))
    case LocalUrl(base) =>
      var id := s.data[s.calls[c].entry].webhookId;
      Some(Url(if id.Some? then id.value else s.calls[c].stage.asked, base))
    case NoUrl => None
  }

  function PublishStep(s: Hub, c: nat, source: Source): Hub
    requires Sound(s, c) && AwaitsUrl(s, c)
  {
    Settle(s, c, UrlFound(s, c, source))
  }

  /** The webhook is registered on behalf of the group unless that has been done; a registration of the same id
      is removed first, which the map update says too. */
  function RegisterStep(s: Hub, c: nat): Hub
    requires Sound(s, c) && s.calls[c].stage.WaitingToRegister?
  {
    var g := s.calls[c].group.value;
    var grp := s.pool[g];
    s.(calls := s.calls[c := s.calls[c].(stage := Finished(true))],
       registry := if grp.registered then s.registry else s.registry[grp.webhookId := c],
       pool := if grp.registered then s.pool
               else s.pool[g := grp.(registered := true, registrations := grp.registrations + 1)])
  }

  function Confirm(d: EntryData, id: Option<nat>): EntryData {
    if d.webhookId == id && d.status.None? then d.(status := Some(true)) else d
  }

  /** Traffic reaches the handler of entry `e`: unless `e` has a status already, every entry with the same id
      that has none is marked, and the application's group is confirmed. */
  function TrafficStep(s: Hub, id: nat): Hub
    requires id in s.registry && Sound(s, s.registry[id])
  {
    var e := s.calls[s.registry[id]].entry;
    var k, first := s.client[e], s.data[e].status.None?;
    s.(data := map m | m in s.data :: if first then Confirm(s.data[m], s.data[e].webhookId) else s.data[m],
       pool := if first && k in s.groups
               then s.pool[s.groups[k] := s.pool[s.groups[k]].(confirmed := true)] else s.pool,
       issues := if first then s.issues - {k} else s.issues)
  }

  function StopBeginStep(s: Hub, c: nat): Hub
    requires Sound(s, c)
  {
    var call := s.calls[c];
    var id := s.data[call.entry].webhookId;
    s.(calls := s.calls[c := call.(stop := Stopping(if id.Some? then id.value else 0))],
       early := s.early || !call.stage.Finished?)
  }

  /** The last member out takes the group and its webhook away. */
  function StopEndStep(s: Hub, c: nat): Hub
    requires Sound(s, c) && s.calls[c].stop.Stopping?
  {
    var call := s.calls[c];
    var k := s.client[call.entry];
    var left := if k in s.groups then s.pool[s.groups[k]].refcount - 1 else 0;
    s.(calls := s.calls[c := call.(stop := Stopped)],
       pool := if k in s.groups then s.pool[s.groups[k] := s.pool[s.groups[k]].(refcount := left)] else s.pool,
       groups := if left <= 0 then s.groups - {k} else s.groups,
       registry := if left <= 0 then s.registry - {call.stop.webhookId} else s.registry)
  }

  function StartStep(s: Hub, c: nat, entry: nat): Hub {
    s.(calls := s.calls[c := Call(entry, Waiting, None, NotListening)])
  }

  function ResolveStep(s: Hub, c: nat): Hub
    requires c in s.calls
  {
    s.(calls := s.calls[c := s.calls[c].(stage := Resolving)], lock := Some(c))
  }

  function AbandonStep(s: Hub, c: nat): Hub
    requires c in s.calls
  {
    s.(calls := s.calls[c := s.calls[c].(stage := Finished(false))],
       lock := if s.calls[c].stage.Resolving? then None else s.lock)
  }

  function Step(s: Hub, e: Event): Hub
    requires Shape(s)
  {
    if !Enabled(s, e) then s
    else
      match e
      case Start(c, entry) => StartStep(s, c, entry)
      case Resolve(c) => ResolveStep(s, c)
      case Resolved(c, skipped, minted) => ResolvedStep(s, c, skipped, minted)
      case JoinExisting(c) => JoinExistingStep(s, c)
      case Publish(c, source) => PublishStep(s, c, source)
      case Register(c) => RegisterStep(s, c)
      case Traffic(id) => TrafficStep(s, id)
      case StopBegin(c) => StopBeginStep(s, c)
      case StopEnd(c) => StopEndStep(s, c)
      case Abandon(c) => AbandonStep(s, c)
  }

  // ---------------------------------------------------------------- invariants

  predicate Listens(call: Call) {
    call.stop.Listening? || call.stop.Stopping?
  }

  /** The calls whose joins are still to be undone by their STOP callback. */
  function Live(s: Hub, g: nat): set<nat> {
    set c | c in s.calls && s.calls[c].group == Some(g) && Listens(s.calls[c])
  }

  ghost predicate Attached(s: Hub, g: nat) {
    g < |s.pool| && s.pool[g].client in s.groups && s.groups[s.pool[g].client] == g
  }

  /** What refers to what. */
  ghost predicate Shape(s: Hub) {
    && s.client.Keys == s.data.Keys
    && (forall e: nat :: e in s.entries <==> e in s.data)
    && (forall id :: id in s.registry ==> s.registry[id] in s.calls)
    && GroupsShape(s) && CallsShape(s) && LockShape(s)
  }

  ghost predicate GroupsShape(s: Hub) {
    forall k :: k in s.groups ==> s.groups[k] < |s.pool| && s.pool[s.groups[k]].client == k
  }

  ghost predicate CallsShape(s: Hub) {
    forall c :: c in s.calls ==> ShapeOfCall(s, s.calls[c])
  }

  /** The lock is held across a suspension only while a call lists the members of a group that is not there. */
  ghost predicate LockShape(s: Hub) {
    && (s.lock.Some? ==> At(s, s.lock.value, Resolving) && !HasGroup(s, s.lock.value))
    && (forall c :: c in s.calls && s.calls[c].stage.Resolving? ==> s.lock == Some(c))
  }

  predicate ShapeOfCall(s: Hub, call: Call) {
    && call.entry in s.data && call.entry in s.client
    && (call.group.None? <==> call.stop.NotListening?)
    && (call.stage.Waiting? || call.stage.Resolving? ==> call.group.None?)
    && (call.stage.GettingUrl? || call.stage.WaitingToRegister? ==> call.group.Some?)
    && (call.group.Some? ==> call.group.value < |s.pool| && s.pool[call.group.value].client == s.client[call.entry])
  }

  /** The count of a group is the number of joins not yet undone, and a group is in the dictionary exactly while
      that is positive. */
  ghost predicate Counted(s: Hub) {
    forall g :: 0 <= g < |s.pool| ==>
      s.pool[g].refcount == |Live(s, g)| && (Attached(s, g) <==> Live(s, g) != {})
  }

  /** Whoever joined a group has a webhook id, and the group's while it is in the dictionary; a STOP callback
      remembers that id too. */
  ghost predicate IdsAgree(s: Hub)
    requires Shape(s)
  {
    JoinedHaveIds(s) && MembersHoldIds(s) && StopsHoldIds(s)
  }

  ghost predicate JoinedHaveIds(s: Hub)
    requires Shape(s)
  {
    forall c :: c in s.calls && s.calls[c].group.Some? ==> s.data[s.calls[c].entry].webhookId.Some?
  }

  ghost predicate MembersHoldIds(s: Hub)
    requires Shape(s)
  {
    forall c :: c in s.calls && s.calls[c].group.Some? && Attached(s, s.calls[c].group.value) ==>
      s.data[s.calls[c].entry].webhookId == Some(s.pool[s.calls[c].group.value].webhookId)
  }

  ghost predicate StopsHoldIds(s: Hub)
    requires Shape(s)
  {
    forall c :: c in s.calls && s.calls[c].stop.Stopping? ==>
      s.calls[c].stop.webhookId == s.pool[s.calls[c].group.value].webhookId
  }

  /** Each group's webhook is registered once at most, and has been once a member ran to the end;
      its setup issue is raised once at most. */
  ghost predicate Once(s: Hub)
    requires Shape(s)
  {
    OncePerGroup(s) && DoneIsRegistered(s)
  }

  ghost predicate OncePerGroup(s: Hub) {
    forall g :: 0 <= g < |s.pool| ==>
      && s.pool[g].registrations == (if s.pool[g].registered then 1 else 0)
      && s.pool[g].raised == (if s.pool[g].issueRaised then 1 else 0)
  }

  ghost predicate DoneIsRegistered(s: Hub)
    requires Shape(s)
  {
    forall c :: c in s.calls && s.calls[c].stage == Finished(true) ==>
      s.calls[c].group.Some? && s.pool[s.calls[c].group.value].registered
  }

  /** As long as no STOP came early, a call that joined and has not finished still counts. */
  ghost predicate Timely(s: Hub) {
    !s.early ==> forall c :: c in s.calls && s.calls[c].group.Some? && !s.calls[c].stage.Finished? ==>
      s.calls[c].stop.Listening?
  }

  /** Every registered webhook belongs to a group in the dictionary that registered it. */
  ghost predicate NoOrphans(s: Hub) {
    forall id :: id in s.registry ==> Owned(s, s.registry[id], id)
  }

  ghost predicate Owned(s: Hub, c: nat, id: nat) {
    && c in s.calls && s.calls[c].group.Some?
    && Attached(s, s.calls[c].group.value)
    && s.pool[s.calls[c].group.value].registered && s.pool[s.calls[c].group.value].webhookId == id
  }

  /** A stored URL was generated for the id stored beside it. */
  ghost predicate Coherent(d: EntryData) {
    d.url.Some? ==> d.webhookId == Some(d.url.value.forId)
  }

  ghost predicate UrlsCoherent(s: Hub)
    requires Shape(s)
  {
    && (forall e :: e in s.data ==> Coherent(s.data[e]))
    && (forall c :: c in s.calls && s.calls[c].stage.GettingUrl? ==>
          s.calls[c].stage.asked == s.pool[s.calls[c].group.value].webhookId)
  }

  /** Nothing stores a status that is false. */
  ghost predicate StatusesTrue(s: Hub) {
    forall e :: e in s.data && s.data[e].status.Some? ==> s.data[e].status.value
  }

  /** Whoever joined a confirmed group is marked. */
  ghost predicate ConfirmedMarked(s: Hub)
    requires Shape(s)
  {
    forall c :: c in s.calls && s.calls[c].group.Some? && s.pool[s.calls[c].group.value].confirmed ==>
      Marked(s.data[s.calls[c].entry])
  }

  /** Entries of different applications hold different ids. */
  ghost predicate Separate(s: Hub)
    requires Shape(s)
  {
    forall e, f :: e in s.data && f in s.data && s.client[e] != s.client[f] && s.data[e].webhookId.Some? ==>
      s.data[e].webhookId != s.data[f].webhookId
  }

  /** Every group in the dictionary that registered its webhook still has it registered. */
  ghost predicate RegisteredKept(s: Hub) {
    forall g :: 0 <= g < |s.pool| && Attached(s, g) && s.pool[g].registered ==> s.pool[g].webhookId in s.registry
  }
}
