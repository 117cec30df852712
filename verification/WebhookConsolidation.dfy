/** Choosing the one webhook id a developer application's entries will share. */
module WebhookConsolidation {
  import opened Bytes

  /** A webhook URL, for what matters here: the id it was generated for, and where it points. */
  datatype Url = Url(forId: nat, base: nat)

  /** The part of a config entry's stored data the webhook code reads and writes. */
  datatype EntryData = EntryData(webhookId: Option<nat>, url: Option<Url>, status: Option<bool>)

  /** The stored status is there and truthy. */
  predicate Marked(d: EntryData) {
    d.status.Some? && d.status.value
  }

  function Existing(members: seq<EntryData>): set<nat> {
    set i | 0 <= i < |members| && members[i].webhookId.Some? :: members[i].webhookId.value
  }

  function ConfirmedIds(members: seq<EntryData>): set<nat> {
    set i | 0 <= i < |members| && Marked(members[i]) && members[i].webhookId.Some? :: members[i].webhookId.value
  }

  /** The id of the first entry that has one, among all of them or among the confirmed ones. */
  function FirstId(members: seq<EntryData>, confirmedOnly: bool): (id: Option<nat>)
  {
    if members == [] then None
    else if members[0].webhookId.Some? && (confirmedOnly ==> Marked(members[0])) then members[0].webhookId
    else FirstId(members[1..], confirmedOnly)
  }

  datatype Choice = Choice(id: nat, confirmed: bool, ambiguous: bool)

  /** `minted` is the new token, used only when no member has an id. */
  function Choose(members: seq<EntryData>, minted: nat): Choice
  {
    var existing, confirmedIds := Existing(members), ConfirmedIds(members);
    FirstIdIsStored(members);
    if existing == {} then Choice(minted, false, false)
    else if |existing| == 1 then
      var id := FirstId(members, false).value;
      Choice(id, id in confirmedIds, false)
    else if |confirmedIds| == 1 then
      Choice(FirstId(members, true).value, true, false)
    else
      Choice(FirstId(members, false).value, false, true)
  }

  lemma {:induction false} FirstIdIsStored(members: seq<EntryData>)
    ensures FirstId(members, false).Some? <==> Existing(members) != {}
    ensures FirstId(members, true).Some? <==> ConfirmedIds(members) != {}
    ensures FirstId(members, false).Some? ==> FirstId(members, false).value in Existing(members)
    ensures FirstId(members, true).Some? ==> FirstId(members, true).value in ConfirmedIds(members)
  {
    if members != [] {
      var rest := members[1..];
      FirstIdIsStored(rest);
      assert forall i :: 0 <= i < |rest| ==> rest[i] == members[i + 1];
      ExistingOfTail(members);
      if members[0].webhookId.Some? {
        assert members[0].webhookId.value in Existing(members);
        if Marked(members[0]) {
          assert members[0].webhookId.value in ConfirmedIds(members);
        }
      }
    }
  }

  lemma ExistingOfTail(members: seq<EntryData>)
    requires members != []
    ensures var head, rest := members[0], members[1..];
            && Existing(members) == Existing(rest) + (if head.webhookId.Some? then {head.webhookId.value} else {})
            && ConfirmedIds(members) == ConfirmedIds(rest)
                 + (if Marked(head) && head.webhookId.Some? then {head.webhookId.value} else {})
  {
    var rest := members[1..];
    assert forall i :: 0 <= i < |rest| ==> rest[i] == members[i + 1];
    forall id | id in Existing(members)
      ensures id in Existing(rest) || members[0].webhookId == Some(id)
    {
      var i :| 0 <= i < |members| && members[i].webhookId == Some(id);
      if i > 0 {
        assert rest[i - 1].webhookId == Some(id);
      }
    }
    forall id | id in ConfirmedIds(members)
      ensures id in ConfirmedIds(rest) || (members[0].webhookId == Some(id) && Marked(members[0]))
    {
      var i :| 0 <= i < |members| && members[i].webhookId == Some(id) && Marked(members[i]);
      if i > 0 {
        assert rest[i - 1].webhookId == Some(id) && Marked(rest[i - 1]);
      }
    }
  }

  /** One entry takes over the group's id and verdict; a URL made for another id is forgotten. */
  function Adopt(d: EntryData, id: nat, confirmed: bool): EntryData {
    var d' := if d.webhookId != Some(id) then d.(webhookId := Some(id), url := None) else d;
    if confirmed && !Marked(d') then d'.(status := Some(true)) else d'
  }

  function AdoptAll(members: seq<EntryData>, c: Choice): (adopted: seq<EntryData>)
    ensures |adopted| == |members|
    ensures forall i :: 0 <= i < |members| ==> adopted[i] == Adopt(members[i], c.id, c.confirmed)
  {
    seq(|members|, i requires 0 <= i < |members| => Adopt(members[i], c.id, c.confirmed))
  }

  // ---------------------------------------------------------------- what consolidation promises

  lemma SingletonElement<T>(s: set<T>, x: T, y: T)
    requires |s| == 1 && x in s && y in s
    ensures x == y
  {
    assert |s - {x}| == 0;
  }

  /** The id chosen is one already stored whenever there is one, and a confirmed one when only one was confirmed. */
  lemma ChosenIsStored(members: seq<EntryData>, minted: nat)
    ensures var c := Choose(members, minted);
            && (Existing(members) == {} ==> c.id == minted)
            && (Existing(members) != {} ==> c.id in Existing(members))
            && (|ConfirmedIds(members)| == 1 ==> c.id in ConfirmedIds(members) && c.confirmed)
            && (c.confirmed <==> c.id in ConfirmedIds(members) && !c.ambiguous)
            && (c.ambiguous <==> |Existing(members)| > 1 && |ConfirmedIds(members)| != 1)
  {
    FirstIdIsStored(members);
    assert ConfirmedIds(members) <= Existing(members);
    if |ConfirmedIds(members)| == 1 {
      var id := FirstId(members, true).value;
      if |Existing(members)| == 1 {
        SingletonElement(Existing(members), id, FirstId(members, false).value);
      }
    }
  }

  lemma {:induction false} FirstIdIsFirst(members: seq<EntryData>)
    requires FirstId(members, false).Some?
    ensures exists i :: 0 <= i < |members| && members[i].webhookId == FirstId(members, false)
              && forall j :: 0 <= j < i ==> members[j].webhookId.None?
  {
    if members[0].webhookId.None? {
      var rest := members[1..];
      FirstIdIsFirst(rest);
      var i :| 0 <= i < |rest| && rest[i].webhookId == FirstId(rest, false)
        && forall j :: 0 <= j < i ==> rest[j].webhookId.None?;
      assert members[i + 1].webhookId == rest[i].webhookId;
      assert forall j :: 0 < j < i + 1 ==> members[j] == rest[j - 1];
    }
  }

  /** A choice that is ambiguous is the id of the first member that has one. */
  lemma AmbiguousIsFirst(members: seq<EntryData>, minted: nat)
    requires Choose(members, minted).ambiguous
    ensures exists i :: 0 <= i < |members| && members[i].webhookId == Some(Choose(members, minted).id)
              && forall j :: 0 <= j < i ==> members[j].webhookId.None?
  {
    FirstIdIsStored(members);
    FirstIdIsFirst(members);
  }

  /** Afterwards every member holds the chosen id, with its URL if it held that before and without one if not, and is
      marked if the choice is confirmed; no other status changes. */
  lemma MembersAgree(members: seq<EntryData>, minted: nat)
    ensures var c := Choose(members, minted);
            var after := AdoptAll(members, c);
            && (forall i :: 0 <= i < |after| ==> after[i].webhookId == Some(c.id))
            && (forall i :: 0 <= i < |after| ==>
                  after[i].url == if members[i].webhookId == Some(c.id) then members[i].url else None)
            && (forall i :: 0 <= i < |after| ==>
                  after[i].status == if c.confirmed then Some(true) else members[i].status)
            && (c.confirmed ==> forall i :: 0 <= i < |after| ==> Marked(after[i]))
  {
  }

  lemma AgreedExisting(members: seq<EntryData>, id: nat)
    requires members != [] && forall i :: 0 <= i < |members| ==> members[i].webhookId == Some(id)
    ensures Existing(members) == {id} && FirstId(members, false) == Some(id)
    ensures ConfirmedIds(members) == if exists i :: 0 <= i < |members| && Marked(members[i]) then {id} else {}
  {
    assert members[0].webhookId.value in Existing(members);
  }

  /** Running it again chooses the same id, without ambiguity. */
  lemma SecondRunChoosesTheSameId(members: seq<EntryData>, minted: nat, mintedAgain: nat)
    requires members != []
    ensures var c := Choose(members, minted);
            var c' := Choose(AdoptAll(members, c), mintedAgain);
            c'.id == c.id && !c'.ambiguous
  {
    var c := Choose(members, minted);
    MembersAgree(members, minted);
    AgreedExisting(AdoptAll(members, c), c.id);
    assert |{c.id}| == 1;
  }

  /** The verdict of the second run is that of the first exactly when one id was confirmed or no member was marked.
      Two or more confirmed ids are first distrusted and then believed; so is a mark without an id beside it. */
  lemma VerdictIsStableIff(members: seq<EntryData>, minted: nat, mintedAgain: nat)
    requires members != []
    ensures var c := Choose(members, minted);
            (Choose(AdoptAll(members, c), mintedAgain).confirmed == c.confirmed
             <==> |ConfirmedIds(members)| == 1 || forall i :: 0 <= i < |members| ==> !Marked(members[i]))
  {
    var c := Choose(members, minted);
    var after := AdoptAll(members, c);
    ChosenIsStored(members, minted);
    MembersAgree(members, minted);
    AgreedExisting(after, c.id);
    assert |{c.id}| == 1;
    if i :| 0 <= i < |members| && Marked(members[i]) {
      assert Marked(after[i]);
      assert ConfirmedIds(after) == {c.id};
      if c.confirmed {
        ConfirmedMeansOneId(members, minted);
      }
    } else {
      assert ConfirmedIds(members) == {};
      assert forall i :: 0 <= i < |after| ==> !Marked(after[i]);
    }
  }

  lemma ConfirmedMeansOneId(members: seq<EntryData>, minted: nat)
    requires Choose(members, minted).confirmed
    ensures |ConfirmedIds(members)| == 1
  {
    var c := Choose(members, minted);
    ChosenIsStored(members, minted);
    if |Existing(members)| == 1 {
      forall id | id in ConfirmedIds(members) ensures id == c.id {
        assert id in Existing(members);
        SingletonElement(Existing(members), id, c.id);
      }
      assert ConfirmedIds(members) == {c.id};
    }
  }
}
