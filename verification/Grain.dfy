/** The one-time merge from one contact per row to one contact per business (jobs/migrate_grain.py),
    and its agreement with a fresh load of the same rows. */
module Grain {
  import opened Types
  import opened Identity
  import opened Intake
  import opened IntakeRuns

  /** The contacts before the merge, seeds aside: each is one row. */
  type OldContacts = map<Id, Row>

  ghost predicate IsTable(was: OldContacts) {
    AreRows(RowsIn(was)) && forall id, other :: id in was && other in was && was[id] == was[other] ==> id == other
  }

  function RowsIn(was: OldContacts): set<Row> {
    set id | id in was :: was[id]
  }

  /** The slots of the table's rows. */
  function Slots(was: OldContacts): set<Slot> {
    set id | id in was && HasTable(was[id]) :: SlotOf(was[id])
  }

  lemma {:induction false} TableRow(was: OldContacts, id: Id)
    requires IsTable(was) && id in was
    ensures was[id] in RowsIn(was) && HasTable(was[id]) && SlotOf(was[id]) in Slots(was) && IdOf(was, was[id]) == id
    ensures forall other :: other in was && other != id && HasTable(was[other]) ==> SlotOf(was[other]) != SlotOf(was[id])
  {
    forall other | other in was && other != id && HasTable(was[other]) ensures SlotOf(was[other]) != SlotOf(was[id]) {
      assert was[other] in RowsIn(was) && was[id] in RowsIn(was);
    }
  }

  function IdOf(was: OldContacts, row: Row): (id: Id)
    requires row in RowsIn(was)
    ensures id in was && was[id] == row
  {
    var ids := set id | id in was && was[id] == row;
    var some :| some in was && was[some] == row;
    assert some in ids;
    MinOf(ids)
  }

  /** The contact of a row as it stood: its own columns, phone included. */
  function OwnLead(r: Row): Lead {
    Lead(r.phone, r.name, r.person, r.email, r.address, r.line2, r.segment, r.source, r.doNotMail)
  }

  // The steps of the merge.

  class Migration {
    var contacts: map<Id, Lead>
    var intake: map<Slot, Filing>

    constructor (was: OldContacts)
      ensures contacts.Keys == was.Keys && forall id :: id in was ==> contacts[id] == OwnLead(was[id])
      ensures intake == map[]
    {
      contacts := map id | id in was :: OwnLead(was[id]);
      intake := map[];
    }

    /** Steps 2 to 5. `order` is the order in which the select returned the contacts. */
    method Migrate(was: OldContacts, order: seq<Id>) returns (groups: seq<seq<Row>>)
      requires IsTable(was) && Distinct(order) && forall id :: id in order <==> id in was
      requires contacts.Keys == was.Keys && forall id :: id in was ==> contacts[id] == OwnLead(was[id])
      requires intake == map[]
      modifies this
      ensures AreMergeGroups(groups, RowsIn(was))
      ensures IsMerged(contacts, intake, was, groups, true)
    {
      BackfillIntake(was, order);
      groups := MergeGroups(was, order);
      NoneMerged(contacts, intake, was);
      ApplyMerge(was, groups);
      MarkPrimaries(was, order, groups);
    }

    /** Every contact row becomes an intake row of its own contact. */
    method BackfillIntake(was: OldContacts, order: seq<Id>)
      requires IsTable(was) && Distinct(order) && (forall id :: id in order <==> id in was) && intake == map[]
      modifies this`intake
      ensures IsBackfilled(intake, was)
    {
      var i := 0;
      while i < |order|
        invariant 0 <= i <= |order|
        invariant forall k :: 0 <= k < i ==> IsFiledAs(intake, was[order[k]], order[k], false)
        invariant forall s :: s in intake ==> s in Slots(was)
      {
        var row := was[order[i]];
        TableRow(was, order[i]);
        OthersStayFiled(intake, was, order, i);
        intake := intake[SlotOf(row) := Filing(row, order[i], false)];
        i := i + 1;
      }
      AllAreFiled(intake, was, order);
    }

    /** CSLB rows that share a phone, two or more to a group. */
    method MergeGroups(was: OldContacts, order: seq<Id>) returns (groups: seq<seq<Row>>)
      requires IsTable(was) && Distinct(order) && forall id :: id in order <==> id in was
      ensures AreMergeGroups(groups, RowsIn(was))
    {
      var rows := Phoned(was, order);
      var all := GroupRows(rows, Cslb);
      PhonedGroups(all, rows, RowsIn(was));
      groups := [];
      var i := 0;
      while i < |all|
        invariant 0 <= i <= |all|
        invariant forall k :: 0 <= k < |groups| ==> |groups[k]| >= 2 && IsOneOf(all[..i], groups[k])
        invariant forall k :: 0 <= k < i && |all[k]| >= 2 ==> all[k] in groups
        invariant forall j, k :: 0 <= j < k < |groups| ==> Rows(groups[j]) !! Rows(groups[k])
      {
        assert all[..i + 1] == all[..i] + [all[i]];
        if |all[i]| >= 2 {
          forall k | 0 <= k < |groups| ensures Rows(groups[k]) !! Rows(all[i]) {
            assert IsOneOf(all[..i], groups[k]);
          }
          assert IsOneOf(all[..i + 1], all[i]) by {
            assert all[..i + 1][i] == all[i];
          }
          groups := groups + [all[i]];
        }
        i := i + 1;
      }
      assert all[..|all|] == all;
      LargeGroups(groups, all, rows, RowsIn(was));
    }

    /** Group by group: repoint the losers' rows, write the survivor's fields, delete the losers. */
    method ApplyMerge(was: OldContacts, groups: seq<seq<Row>>)
      requires IsTable(was) && AreMergeGroups(groups, RowsIn(was)) && IsMerged(contacts, intake, was, [], false)
      modifies this
      ensures IsMerged(contacts, intake, was, groups, false)
    {
      var i := 0;
      while i < |groups|
        invariant 0 <= i <= |groups|
        invariant IsMerged(contacts, intake, was, groups[..i], false)
      {
        MergeNext(was, groups, i);
        i := i + 1;
      }
      assert groups[..|groups|] == groups;
    }

    method MergeNext(was: OldContacts, groups: seq<seq<Row>>, i: nat)
      requires IsTable(was) && AreMergeGroups(groups, RowsIn(was)) && i < |groups|
      requires IsMerged(contacts, intake, was, groups[..i], false)
      modifies this
      ensures IsMerged(contacts, intake, was, groups[..i + 1], false)
    {
      GroupIsMergeable(groups, RowsIn(was), i);
      WinnerStands(contacts, intake, was, groups, i);
      ghost var before, filings := contacts, intake;
      MergeOne(was, groups[i]);
      MergeStep(before, filings, was, groups, i, contacts, intake);
    }

    method MergeOne(was: OldContacts, group: seq<Row>)
      requires IsTable(was) && group != [] && Distinct(group) && IsGroup(Rows(group)) && Rows(group) <= RowsIn(was)
      requires IdOf(was, Winner(Rows(group))) in contacts
      modifies this
      ensures var survivor := IdOf(was, Winner(Rows(group)));
              && intake == Repointed(old(intake), LoserIds(was, Rows(group)), survivor)
              && contacts == (old(contacts) - LoserIds(was, Rows(group)))
                             [survivor := MergedLead(old(contacts)[survivor], Rows(group))]
    {
      var w := PickWinner(group);
      var email := CoalesceEmail(group, w);
      var survivor := IdOf(was, w);
      var losers := set r | r in group && r != w :: IdOf(was, r);
      assert losers == LoserIds(was, Rows(group));
      LosersAreOthers(was, Rows(group));
      intake := map s | s in intake :: if intake[s].contact in losers then intake[s].(contact := survivor) else intake[s];
      var c := contacts[survivor];
      var suppressed := c.doNotMail || exists r :: r in group && r.doNotMail;
      assert suppressed == (c.doNotMail || AnyDoNotMail(Rows(group)));
      contacts := (contacts - losers)[survivor := c.(
        email := email, name := w.name, person := w.person, segment := w.segment, source := w.source,
        address := w.address, doNotMail := suppressed)];
    }

    /** One primary row each: the winner of a merged group, the only row of any other contact. */
    method MarkPrimaries(was: OldContacts, order: seq<Id>, groups: seq<seq<Row>>)
      requires IsTable(was) && (forall id :: id in order <==> id in was) && AreMergeGroups(groups, RowsIn(was))
      requires IsMerged(contacts, intake, was, groups, false)
      modifies this`intake
      ensures IsMerged(contacts, intake, was, groups, true)
    {
      var keys := PrimaryKeys(was, groups);
      ghost var filings := intake;
      intake := map s | s in intake :: if s in keys then intake[s].(isPrimary := true) else intake[s];
      MarkedIsMerged(contacts, filings, was, groups, keys, intake);
    }

    method PrimaryKeys(was: OldContacts, groups: seq<seq<Row>>) returns (keys: set<Slot>)
      requires IsTable(was) && AreMergeGroups(groups, RowsIn(was))
      ensures forall id :: id in was && HasTable(was[id]) ==>
                (SlotOf(was[id]) in keys <==> SurvivorOf(groups, was[id]) == was[id])
    {
      keys := {};
      var i := 0;
      while i < |groups|
        invariant 0 <= i <= |groups|
        invariant keys == Winners(RowsIn(was), groups, i)
      {
        GroupIsMergeable(groups, RowsIn(was), i);
        var w := PickWinner(groups[i]);
        OneMoreWinner(RowsIn(was), groups, i);
        keys := keys + {SlotOf(w)};
        i := i + 1;
      }
      keys := keys + set id | id in was && !IsGrouped(groups, was[id]) && HasTable(was[id]) :: SlotOf(was[id]);
      WinnersAreSurvivors(was, groups, keys);
    }
  }

  // What the steps mean.

  lemma {:induction false} OthersStayFiled(intake: map<Slot, Filing>, was: OldContacts, order: seq<Id>, i: nat)
    requires IsTable(was) && Distinct(order) && (forall id :: id in order ==> id in was) && i < |order|
    requires forall k :: 0 <= k < i ==> IsFiledAs(intake, was[order[k]], order[k], false)
    requires HasTable(was[order[i]])
    ensures var later := intake[SlotOf(was[order[i]]) := Filing(was[order[i]], order[i], false)];
            forall k :: 0 <= k < i ==> IsFiledAs(later, was[order[k]], order[k], false)
  {
    TableRow(was, order[i]);
    forall k | 0 <= k < i ensures SlotOf(was[order[k]]) != SlotOf(was[order[i]]) {
      TableRow(was, order[k]);
    }
  }

  lemma {:induction false} AllAreFiled(intake: map<Slot, Filing>, was: OldContacts, order: seq<Id>)
    requires IsTable(was) && forall id :: id in order <==> id in was
    requires forall k :: 0 <= k < |order| ==> IsFiledAs(intake, was[order[k]], order[k], false)
    requires forall s :: s in intake ==> s in Slots(was)
    ensures IsBackfilled(intake, was)
  {
    forall id | id in was ensures IsFiledAs(intake, was[id], id, false) {
      var k :| 0 <= k < |order| && order[k] == id;
    }
    forall s | s in Slots(was) ensures s in intake {
      var id :| id in was && HasTable(was[id]) && SlotOf(was[id]) == s;
      assert IsFiledAs(intake, was[id], id, false);
    }
  }

  predicate IsFiledAs(intake: map<Slot, Filing>, row: Row, contact: Id, primary: bool) {
    HasTable(row) && SlotOf(row) in intake && intake[SlotOf(row)] == Filing(row, contact, primary)
  }

  ghost predicate IsBackfilled(intake: map<Slot, Filing>, was: OldContacts)
    requires IsTable(was)
  {
    intake.Keys == Slots(was) && forall id :: id in was ==> IsFiledAs(intake, was[id], id, false)
  }

  /** The groups of two or more, each a whole business. */
  ghost predicate AreMergeGroups(groups: seq<seq<Row>>, rows: set<Row>) {
    && (forall i :: 0 <= i < |groups| ==> |groups[i]| >= 2 && Distinct(groups[i]))
    && (forall i, r :: 0 <= i < |groups| && r in groups[i] ==> r in rows && Rows(groups[i]) == GroupOf(rows, r))
    && (forall r :: r in rows && GroupOf(rows, r) != {r} ==> IsGrouped(groups, r))
    && (forall i, j :: 0 <= i < j < |groups| ==> Rows(groups[i]) !! Rows(groups[j]))
  }

  predicate IsGrouped(groups: seq<seq<Row>>, r: Row) {
    exists i :: 0 <= i < |groups| && r in groups[i]
  }

  /** The row whose contact takes r in, once these groups are merged. */
  ghost function SurvivorOf(groups: seq<seq<Row>>, r: Row): Row {
    if IsGrouped(groups, r) then
      var i :| 0 <= i < |groups| && r in groups[i];
      assert r in Rows(groups[i]);
      Winner(Rows(groups[i]))
    else r
  }

  ghost function LoserIds(was: OldContacts, group: set<Row>): set<Id>
    requires group != {} && group <= RowsIn(was)
  {
    set r | r in group && r != Winner(group) :: IdOf(was, r)
  }

  function Repointed(intake: map<Slot, Filing>, losers: set<Id>, survivor: Id): map<Slot, Filing> {
    map s | s in intake :: if intake[s].contact in losers then intake[s].(contact := survivor) else intake[s]
  }

  /** The survivor's fields; its phone and second address line are its own. */
  ghost function MergedLead(c: Lead, group: set<Row>): Lead
    requires group != {}
  {
    var w := Winner(group);
    c.(email := Email(group), name := w.name, person := w.person, segment := w.segment, source := w.source,
       address := w.address, doNotMail := c.doNotMail || AnyDoNotMail(group))
  }

  ghost function LeadAfter(groups: seq<seq<Row>>, r: Row): Lead {
    if IsGrouped(groups, r) then
      var i :| 0 <= i < |groups| && r in groups[i];
      assert r in Rows(groups[i]);
      MergedLead(OwnLead(r), Rows(groups[i]))
    else OwnLead(r)
  }

  /** One old contact once some groups are merged: its row is filed under its survivor, and it is
      still there exactly if that is itself. */
  ghost predicate IsAt(contacts: map<Id, Lead>, intake: map<Slot, Filing>, was: OldContacts, groups: seq<seq<Row>>,
                       marked: bool, id: Id)
    requires id in was
  {
    var survivor := SurvivorOf(groups, was[id]);
    && survivor in RowsIn(was)
    && IsFiledAs(intake, was[id], IdOf(was, survivor), marked && survivor == was[id])
    && (id in contacts <==> survivor == was[id])
    && (id in contacts ==> contacts[id] == LeadAfter(groups, was[id]))
  }

  /** The tables once some groups are merged; with `marked`, each surviving row is primary. */
  ghost predicate IsMerged(contacts: map<Id, Lead>, intake: map<Slot, Filing>, was: OldContacts, groups: seq<seq<Row>>,
                           marked: bool)
  {
    && intake.Keys == Slots(was) && contacts.Keys <= was.Keys
    && forall id {:trigger IsAt(contacts, intake, was, groups, marked, id)} :: id in was ==>
         IsAt(contacts, intake, was, groups, marked, id)
  }

  ghost function Winners(rows: set<Row>, groups: seq<seq<Row>>, n: nat): set<Slot>
    requires AreRows(rows) && AreMergeGroups(groups, rows) && n <= |groups|
  {
    set i | 0 <= i < n && Rows(groups[i]) != {} && Winner(Rows(groups[i])) in rows :: SlotOf(Winner(Rows(groups[i])))
  }

  lemma {:induction false} MarkedIsMerged(contacts: map<Id, Lead>, filings: map<Slot, Filing>, was: OldContacts, groups: seq<seq<Row>>,
                                          keys: set<Slot>, intake: map<Slot, Filing>)
    requires IsTable(was) && IsMerged(contacts, filings, was, groups, false)
    requires forall id :: id in was && HasTable(was[id]) ==> (SlotOf(was[id]) in keys <==> SurvivorOf(groups, was[id]) == was[id])
    requires intake == map s | s in filings :: if s in keys then filings[s].(isPrimary := true) else filings[s]
    ensures IsMerged(contacts, intake, was, groups, true)
  {
    assert intake.Keys == filings.Keys;
    forall id | id in was ensures IsAt(contacts, intake, was, groups, true, id) {
      TableRow(was, id);
      assert IsAt(contacts, filings, was, groups, false, id);
    }
  }

  lemma {:induction false} OneMoreWinner(rows: set<Row>, groups: seq<seq<Row>>, i: nat)
    requires AreRows(rows) && AreMergeGroups(groups, rows) && i < |groups|
    ensures Rows(groups[i]) != {} && HasTable(Winner(Rows(groups[i])))
    ensures Winners(rows, groups, i + 1) == Winners(rows, groups, i) + {SlotOf(Winner(Rows(groups[i])))}
  {
    GroupIsMergeable(groups, rows, i);
  }

  /** The CSLB contacts that have a phone. */
  method Phoned(was: OldContacts, order: seq<Id>) returns (rows: seq<Row>)
    requires IsTable(was) && Distinct(order) && forall id :: id in order <==> id in was
    ensures Distinct(rows)
    ensures forall r :: r in rows <==> r in RowsIn(was) && FamilyOf(r.source) == Some(Cslb) && r.phone.Some?
  {
    rows := [];
    var i := 0;
    while i < |order|
      invariant 0 <= i <= |order| && Distinct(rows)
      invariant forall r :: r in rows <==>
        FamilyOf(r.source) == Some(Cslb) && r.phone.Some? && exists k :: 0 <= k < i && was[order[k]] == r
    {
      var row := was[order[i]];
      assert forall k :: 0 <= k < i ==> was[order[k]] != row;
      if FamilyOf(row.source) == Some(Cslb) && row.phone.Some? {
        rows := rows + [row];
      }
      i := i + 1;
    }
    forall r | r in RowsIn(was) && FamilyOf(r.source) == Some(Cslb) && r.phone.Some? ensures r in rows {
      var id :| id in was && was[id] == r;
      var k :| 0 <= k < |order| && order[k] == id;
      assert was[order[k]] == r;
    }
  }

  lemma {:induction false} PhonedGroups(all: seq<seq<Row>>, rows: seq<Row>, whole: set<Row>)
    requires IsPartition(all, Rows(rows))
    requires forall r :: r in rows <==> r in whole && FamilyOf(r.source) == Some(Cslb) && r.phone.Some?
    ensures forall i, r :: 0 <= i < |all| && r in all[i] ==> r in whole && Rows(all[i]) == GroupOf(whole, r)
  {
    forall i, r | 0 <= i < |all| && r in all[i] ensures r in whole && Rows(all[i]) == GroupOf(whole, r) {
      assert r in Rows(rows);
      assert GroupOf(Rows(rows), r) == GroupOf(whole, r);
    }
  }

  lemma {:induction false} OneIsSingle(s: seq<Row>)
    requires s != []
    ensures |s| == 1 ==> Rows(s) == {s[0]}
  {
  }

  predicate IsOneOf(all: seq<seq<Row>>, group: seq<Row>) {
    exists j :: 0 <= j < |all| && all[j] == group
  }

  lemma {:induction false} LargeGroups(groups: seq<seq<Row>>, all: seq<seq<Row>>, rows: seq<Row>, whole: set<Row>)
    requires AreRows(whole) && IsPartition(all, Rows(rows))
    requires forall r :: r in rows <==> r in whole && FamilyOf(r.source) == Some(Cslb) && r.phone.Some?
    requires forall i, r :: 0 <= i < |all| && r in all[i] ==> r in whole && Rows(all[i]) == GroupOf(whole, r)
    requires forall k :: 0 <= k < |groups| ==> |groups[k]| >= 2 && IsOneOf(all, groups[k])
    requires forall k :: 0 <= k < |all| && |all[k]| >= 2 ==> all[k] in groups
    requires forall j, k :: 0 <= j < k < |groups| ==> Rows(groups[j]) !! Rows(groups[k])
    ensures AreMergeGroups(groups, whole)
  {
    forall k | 0 <= k < |groups|
      ensures Distinct(groups[k]) && forall r :: r in groups[k] ==> r in whole && Rows(groups[k]) == GroupOf(whole, r)
    {
      var i :| 0 <= i < |all| && all[i] == groups[k];
    }
    forall r | r in whole && GroupOf(whole, r) != {r} ensures IsGrouped(groups, r) {
      assert r in rows && r in Rows(rows);
      var i :| 0 <= i < |all| && r in all[i];
      GroupIsGroup(whole, r);
      OneIsSingle(all[i]);
      var k :| 0 <= k < |groups| && groups[k] == all[i];
    }
  }

  // The merge, one group at a time.

  lemma {:induction false} NotGroupedYet(groups: seq<seq<Row>>, rows: set<Row>, i: nat, r: Row)
    requires AreMergeGroups(groups, rows) && i < |groups| && r in groups[i]
    ensures !IsGrouped(groups[..i], r)
  {
    forall k | 0 <= k < i ensures r !in groups[..i][k] {
      assert Rows(groups[k]) !! Rows(groups[i]);
      assert r in Rows(groups[i]);
    }
  }

  /** Merging one more group changes the survivor of its own rows, and of no others. */
  lemma {:induction false} SurvivorStep(groups: seq<seq<Row>>, rows: set<Row>, i: nat, r: Row)
    requires AreMergeGroups(groups, rows) && i < |groups|
    ensures groups[i] != [] && Rows(groups[i]) != {}
    ensures SurvivorOf(groups[..i + 1], r) == if r in groups[i] then Winner(Rows(groups[i])) else SurvivorOf(groups[..i], r)
    ensures LeadAfter(groups[..i + 1], r)
            == if r in groups[i] then MergedLead(OwnLead(r), Rows(groups[i])) else LeadAfter(groups[..i], r)
  {
    assert groups[i][0] in Rows(groups[i]);
    var before, after := groups[..i], groups[..i + 1];
    assert after[i] == groups[i] && forall k :: 0 <= k < i ==> before[k] == groups[k] && after[k] == groups[k];
    if r in groups[i] {
      assert r in after[i];
      forall k | 0 <= k < i ensures r !in after[k] {
        assert Rows(groups[k]) !! Rows(groups[i]);
        assert r in Rows(groups[i]);
      }
    } else if IsGrouped(before, r) {
      var j :| 0 <= j < |before| && r in before[j];
      assert r in after[j] && r in Rows(groups[j]);
      forall k | 0 <= k < i && k != j ensures r !in groups[k] {
        OthersApart(groups, rows, j, k);
      }
    }
  }

  lemma {:induction false} OthersApart(groups: seq<seq<Row>>, rows: set<Row>, j: nat, k: nat)
    requires AreMergeGroups(groups, rows) && j < |groups| && k < |groups| && j != k
    ensures Rows(groups[j]) !! Rows(groups[k])
  {
    if j < k {
      assert Rows(groups[j]) !! Rows(groups[k]);
    } else {
      assert Rows(groups[k]) !! Rows(groups[j]);
    }
  }

  lemma {:induction false} NoneMerged(contacts: map<Id, Lead>, intake: map<Slot, Filing>, was: OldContacts)
    requires IsTable(was) && IsBackfilled(intake, was)
    requires contacts.Keys == was.Keys && forall id :: id in was ==> contacts[id] == OwnLead(was[id])
    ensures IsMerged(contacts, intake, was, [], false)
  {
    forall id | id in was ensures IsAt(contacts, intake, was, [], false, id) {
      TableRow(was, id);
    }
  }

  lemma {:induction false} GroupIsMergeable(groups: seq<seq<Row>>, rows: set<Row>, i: nat)
    requires AreRows(rows) && AreMergeGroups(groups, rows) && i < |groups|
    ensures groups[i] != [] && Distinct(groups[i]) && IsGroup(Rows(groups[i])) && Rows(groups[i]) <= rows
    ensures Winner(Rows(groups[i])) in groups[i]
  {
    var r := groups[i][0];
    assert r in groups[i];
    GroupIsGroup(rows, r);
  }

  lemma {:induction false} WinnerStands(contacts: map<Id, Lead>, intake: map<Slot, Filing>, was: OldContacts, groups: seq<seq<Row>>, i: nat)
    requires IsTable(was) && AreMergeGroups(groups, RowsIn(was)) && i < |groups|
    requires IsMerged(contacts, intake, was, groups[..i], false)
    ensures Rows(groups[i]) != {} && Winner(Rows(groups[i])) in RowsIn(was)
    ensures IdOf(was, Winner(Rows(groups[i]))) in contacts
    ensures contacts[IdOf(was, Winner(Rows(groups[i])))] == OwnLead(Winner(Rows(groups[i])))
  {
    GroupIsMergeable(groups, RowsIn(was), i);
    var w := Winner(Rows(groups[i]));
    NotGroupedYet(groups, RowsIn(was), i, w);
    assert IsAt(contacts, intake, was, groups[..i], false, IdOf(was, w));
  }

  lemma {:induction false} LosersAreOthers(was: OldContacts, group: set<Row>)
    requires IsTable(was) && group != {} && group <= RowsIn(was)
    ensures IdOf(was, Winner(group)) !in LoserIds(was, group)
    ensures forall r :: r in RowsIn(was) ==> (IdOf(was, r) in LoserIds(was, group) <==> r in group && r != Winner(group))
  {
    forall r | r in RowsIn(was)
      ensures IdOf(was, r) in LoserIds(was, group) <==> r in group && r != Winner(group)
    {
      if IdOf(was, r) in LoserIds(was, group) {
        var q :| q in group && q != Winner(group) && IdOf(was, q) == IdOf(was, r);
      }
    }
  }

  lemma {:induction false} SurvivorIsRow(was: OldContacts, groups: seq<seq<Row>>, i: nat, r: Row)
    requires IsTable(was) && AreMergeGroups(groups, RowsIn(was)) && i < |groups| && r in RowsIn(was) && r !in groups[i]
    ensures SurvivorOf(groups[..i], r) in RowsIn(was) && SurvivorOf(groups[..i], r) !in groups[i]
  {
    if IsGrouped(groups[..i], r) {
      var j :| 0 <= j < i && r in groups[..i][j] && SurvivorOf(groups[..i], r) == Winner(Rows(groups[j]));
      GroupIsMergeable(groups, RowsIn(was), j);
      assert Rows(groups[j]) !! Rows(groups[i]);
      assert Winner(Rows(groups[j])) in Rows(groups[j]);
    }
  }

  /** The tables after one more group. */
  lemma {:induction false} MergeStep(before: map<Id, Lead>, filings: map<Slot, Filing>, was: OldContacts, groups: seq<seq<Row>>, i: nat,
                                     contacts: map<Id, Lead>, intake: map<Slot, Filing>)
    requires IsTable(was) && AreMergeGroups(groups, RowsIn(was)) && i < |groups|
    requires IsMerged(before, filings, was, groups[..i], false)
    requires Rows(groups[i]) != {} && Rows(groups[i]) <= RowsIn(was)
    requires var survivor := IdOf(was, Winner(Rows(groups[i])));
             && survivor in before
             && intake == Repointed(filings, LoserIds(was, Rows(groups[i])), survivor)
             && contacts == (before - LoserIds(was, Rows(groups[i])))
                            [survivor := MergedLead(before[survivor], Rows(groups[i]))]
    ensures IsMerged(contacts, intake, was, groups[..i + 1], false)
  {
    WinnerStands(before, filings, was, groups, i);
    MergeKeepsTables(before, filings, was, groups, i, contacts, intake);
    forall id | id in was ensures IsAt(contacts, intake, was, groups[..i + 1], false, id) {
      assert IsAt(before, filings, was, groups[..i], false, id);
      MergeStepAt(before, filings, was, groups, i, contacts, intake, id);
    }
  }

  lemma {:induction false} MergeKeepsTables(before: map<Id, Lead>, filings: map<Slot, Filing>, was: OldContacts, groups: seq<seq<Row>>, i: nat,
                                            contacts: map<Id, Lead>, intake: map<Slot, Filing>)
    requires i < |groups| && Rows(groups[i]) != {} && Rows(groups[i]) <= RowsIn(was) && before.Keys <= was.Keys
    requires var survivor := IdOf(was, Winner(Rows(groups[i])));
             && survivor in before
             && intake == Repointed(filings, LoserIds(was, Rows(groups[i])), survivor)
             && contacts == (before - LoserIds(was, Rows(groups[i])))
                            [survivor := MergedLead(before[survivor], Rows(groups[i]))]
    ensures intake.Keys == filings.Keys && contacts.Keys <= was.Keys
  {
  }

  lemma {:induction false} MergeStepAt(before: map<Id, Lead>, filings: map<Slot, Filing>, was: OldContacts, groups: seq<seq<Row>>, i: nat,
                                       contacts: map<Id, Lead>, intake: map<Slot, Filing>, id: Id)
    requires IsTable(was) && AreMergeGroups(groups, RowsIn(was)) && i < |groups| && id in was
    requires IsAt(before, filings, was, groups[..i], false, id)
    requires Rows(groups[i]) != {} && Rows(groups[i]) <= RowsIn(was)
    requires var survivor := IdOf(was, Winner(Rows(groups[i])));
             && survivor in before && before[survivor] == OwnLead(Winner(Rows(groups[i])))
             && intake == Repointed(filings, LoserIds(was, Rows(groups[i])), survivor)
             && contacts == (before - LoserIds(was, Rows(groups[i])))
                            [survivor := MergedLead(before[survivor], Rows(groups[i]))]
    ensures IsAt(contacts, intake, was, groups[..i + 1], false, id)
  {
    var r := was[id];
    TableRow(was, id);
    LosersAreOthers(was, Rows(groups[i]));
    SurvivorStep(groups, RowsIn(was), i, r);
    if r in groups[i] {
      NotGroupedYet(groups, RowsIn(was), i, r);
      assert r in Rows(groups[i]);
    } else {
      SurvivorIsRow(was, groups, i, r);
      assert r !in Rows(groups[i]);
    }
  }

  lemma {:induction false} WinnersAreSurvivors(was: OldContacts, groups: seq<seq<Row>>, keys: set<Slot>)
    requires IsTable(was) && AreMergeGroups(groups, RowsIn(was))
    requires keys == Winners(RowsIn(was), groups, |groups|)
                     + set id | id in was && !IsGrouped(groups, was[id]) && HasTable(was[id]) :: SlotOf(was[id])
    ensures forall id :: id in was && HasTable(was[id]) ==>
              (SlotOf(was[id]) in keys <==> SurvivorOf(groups, was[id]) == was[id])
  {
    forall id | id in was && HasTable(was[id])
      ensures SlotOf(was[id]) in keys <==> SurvivorOf(groups, was[id]) == was[id]
    {
      TableRow(was, id);
      WinnersSlot(was, groups, was[id]);
    }
  }

  /** A row's slot is a winner's exactly when the row is grouped and survives. */
  lemma {:induction false} WinnersSlot(was: OldContacts, groups: seq<seq<Row>>, r: Row)
    requires IsTable(was) && AreMergeGroups(groups, RowsIn(was)) && r in RowsIn(was)
    ensures SlotOf(r) in Winners(RowsIn(was), groups, |groups|) <==> IsGrouped(groups, r) && SurvivorOf(groups, r) == r
  {
    if SlotOf(r) in Winners(RowsIn(was), groups, |groups|) {
      var k :| 0 <= k < |groups| && Rows(groups[k]) != {} && Winner(Rows(groups[k])) in RowsIn(was)
               && SlotOf(Winner(Rows(groups[k]))) == SlotOf(r);
      GroupIsMergeable(groups, RowsIn(was), k);
      assert Winner(Rows(groups[k])) == r && r in groups[k];
      SurvivorIn(groups, RowsIn(was), k, r);
    }
    if IsGrouped(groups, r) {
      var i :| 0 <= i < |groups| && r in groups[i];
      GroupIsMergeable(groups, RowsIn(was), i);
      SurvivorIn(groups, RowsIn(was), i, r);
      assert r in Rows(groups[i]);
    }
  }

  /** The survivor of a grouped row is the winner of its whole group. */
  lemma {:induction false} SurvivorIn(groups: seq<seq<Row>>, rows: set<Row>, i: nat, r: Row)
    requires AreMergeGroups(groups, rows) && i < |groups| && r in groups[i]
    ensures Rows(groups[i]) != {}
    ensures SurvivorOf(groups, r) == Winner(Rows(groups[i]))
    ensures LeadAfter(groups, r) == MergedLead(OwnLead(r), Rows(groups[i]))
  {
    assert r in Rows(groups[i]);
    forall k | 0 <= k < |groups| && k != i ensures r !in groups[k] {
      OthersApart(groups, rows, i, k);
    }
  }
}
