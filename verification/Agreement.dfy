/** The two writers of identity agree: the merge of one contact per row, and a fresh load of the same
    rows, leave the same businesses (resolution/pick.py). */
module Agreement {
  import opened Types
  import opened Identity
  import opened Intake
  import opened IntakeRuns
  import opened Grain

  ghost function RowsUnder(intake: map<Slot, Filing>, id: Id): set<Row> {
    set s | s in intake && intake[s].contact == id :: intake[s].row
  }

  /** The tables without their ids: each contact with its rows, under the slot of its primary row. */
  ghost function View(leads: map<Id, Lead>, intake: map<Slot, Filing>): map<Slot, Business> {
    map s | s in intake && intake[s].isPrimary && intake[s].contact in leads ::
      Business(leads[intake[s].contact], RowsUnder(intake, intake[s].contact))
  }

  function LeadsOf(b: Book): map<Id, Lead> {
    map id | id in b.contacts && !b.contacts[id].isSeed :: b.contacts[id].lead
  }

  /** The group has a contact of its own, made as the picks say. */
  ghost predicate IsEntry(leads: map<Id, Lead>, intake: map<Slot, Filing>, group: set<Row>, id: Id) {
    && group != {} && id in leads && leads[id] == LeadFor(group)
    && (forall r :: r in group ==> IsFiledAs(intake, r, id, r == Winner(group)))
    && (forall s :: s in intake && intake[s].contact == id ==> intake[s].row in group)
  }

  ghost predicate HasEntry(leads: map<Id, Lead>, intake: map<Slot, Filing>, group: set<Row>) {
    exists id :: IsEntry(leads, intake, group, id)
  }

  lemma {:induction false} EntryRows(leads: map<Id, Lead>, intake: map<Slot, Filing>, group: set<Row>, id: Id)
    requires IsEntry(leads, intake, group, id)
    ensures RowsUnder(intake, id) == group
  {
    forall r | r in group ensures r in RowsUnder(intake, id) {
      assert IsFiledAs(intake, r, id, r == Winner(group));
      assert SlotOf(r) in intake && intake[SlotOf(r)].row == r;
    }
  }

  lemma {:induction false} EntryView(leads: map<Id, Lead>, intake: map<Slot, Filing>, rows: set<Row>, r: Row)
    requires AreRows(rows) && r in rows && HasEntry(leads, intake, GroupOf(rows, r))
    ensures GroupOf(rows, r) != {}
    ensures SlotOf(r) in View(leads, intake) <==> IsPrimary(rows, r)
    ensures IsPrimary(rows, r) ==> View(leads, intake)[SlotOf(r)] == Business(LeadFor(GroupOf(rows, r)), GroupOf(rows, r))
  {
    GroupIsGroup(rows, r);
    var group := GroupOf(rows, r);
    var id :| IsEntry(leads, intake, group, id);
    assert IsFiledAs(intake, r, id, r == Winner(group));
    EntryRows(leads, intake, group, id);
  }

  /** If every business of the rows has its entry, and the tables hold nothing else, they are exactly
      the businesses of the rows. */
  lemma {:induction false} EntriesAreBusinesses(leads: map<Id, Lead>, intake: map<Slot, Filing>, rows: set<Row>)
    requires AreRows(rows)
    requires forall r :: r in rows ==> HasEntry(leads, intake, GroupOf(rows, r))
    requires forall s :: s in intake ==> exists r :: r in rows && SlotOf(r) == s
    ensures View(leads, intake) == Businesses(rows)
  {
    forall s ensures SameAt(View(leads, intake), Businesses(rows), s) {
      SlotAgrees(leads, intake, rows, s);
    }
    SameEverywhere(View(leads, intake), Businesses(rows));
  }

  lemma {:induction false} SlotAgrees(leads: map<Id, Lead>, intake: map<Slot, Filing>, rows: set<Row>, s: Slot)
    requires AreRows(rows)
    requires forall r :: r in rows ==> HasEntry(leads, intake, GroupOf(rows, r))
    requires s in intake ==> exists r :: r in rows && SlotOf(r) == s
    ensures SameAt(View(leads, intake), Businesses(rows), s)
  {
    if r :| r in rows && SlotOf(r) == s {
      EntryView(leads, intake, rows, r);
      BusinessAt(rows, r);
    }
  }

  predicate SameAt(a: map<Slot, Business>, b: map<Slot, Business>, s: Slot) {
    if s in a then s in b && a[s] == b[s] else s !in b
  }

  lemma {:induction false} SameEverywhere(a: map<Slot, Business>, b: map<Slot, Business>)
    requires forall s :: SameAt(a, b, s)
    ensures a == b
  {
    forall s ensures s in a <==> s in b {
      assert SameAt(a, b, s);
    }
    forall s | s in a ensures a[s] == b[s] {
      assert SameAt(a, b, s);
    }
  }

  lemma {:induction false} BusinessAt(rows: set<Row>, r: Row)
    requires AreRows(rows) && r in rows && GroupOf(rows, r) != {}
    ensures SlotOf(r) in Businesses(rows) <==> IsPrimary(rows, r)
    ensures IsPrimary(rows, r) ==> Businesses(rows)[SlotOf(r)] == Business(LeadFor(GroupOf(rows, r)), GroupOf(rows, r))
  {
    if IsPrimary(rows, r) {
      assert RowAt(rows, SlotOf(r)) == r;
    }
  }

  // The merge.

  /** A merged or untouched contact is made as the picks say exactly when it has no phone that a fresh
      load would have left off. */
  lemma {:induction false} MergedEntry(leads: map<Id, Lead>, intake: map<Slot, Filing>, was: OldContacts, groups: seq<seq<Row>>, r: Row)
    requires IsTable(was) && AreMergeGroups(groups, RowsIn(was)) && IsMerged(leads, intake, was, groups, true)
    requires r in RowsIn(was) && LeadPhone(r) == r.phone
    ensures HasEntry(leads, intake, GroupOf(RowsIn(was), r))
  {
    var rows := RowsIn(was);
    GroupIsGroup(rows, r);
    var group := GroupOf(rows, r);
    var w := Winner(group);
    var id := IdOf(was, w);
    forall q | q in group ensures SurvivorOf(groups, q) == w {
      SurvivorIsWinner(was, groups, q);
    }
    forall q | q in group ensures IsFiledAs(intake, q, id, q == w) {
      TableRow(was, IdOf(was, q));
      assert IsAt(leads, intake, was, groups, true, IdOf(was, q));
    }
    assert IsAt(leads, intake, was, groups, true, id);
    MergedLeadIsPicked(was, groups, w);
    GroupIsGroup(rows, w);
    forall s | s in intake && intake[s].contact == id ensures intake[s].row in group {
      FiledUnder(leads, intake, was, groups, s, w);
    }
    assert IsEntry(leads, intake, group, id);
  }

  /** Every row's survivor is the winner of its business. */
  lemma {:induction false} SurvivorIsWinner(was: OldContacts, groups: seq<seq<Row>>, q: Row)
    requires IsTable(was) && AreMergeGroups(groups, RowsIn(was)) && q in RowsIn(was)
    ensures GroupOf(RowsIn(was), q) != {} && SurvivorOf(groups, q) == Winner(GroupOf(RowsIn(was), q))
  {
    GroupIsGroup(RowsIn(was), q);
    if IsGrouped(groups, q) {
      var i :| 0 <= i < |groups| && q in groups[i];
      SurvivorIn(groups, RowsIn(was), i, q);
    }
  }

  lemma {:induction false} FiledUnder(leads: map<Id, Lead>, intake: map<Slot, Filing>, was: OldContacts, groups: seq<seq<Row>>, s: Slot, w: Row)
    requires IsTable(was) && AreMergeGroups(groups, RowsIn(was)) && IsMerged(leads, intake, was, groups, true)
    requires w in RowsIn(was) && s in intake && intake[s].contact == IdOf(was, w)
    ensures intake[s].row in GroupOf(RowsIn(was), w)
  {
    assert s in Slots(was);
    var id :| id in was && HasTable(was[id]) && SlotOf(was[id]) == s;
    TableRow(was, id);
    assert IsAt(leads, intake, was, groups, true, id);
    SurvivorIsWinner(was, groups, was[id]);
    GroupIsGroup(RowsIn(was), was[id]);
    assert SurvivorOf(groups, was[id]) == w;
  }

  lemma {:induction false} SingleEmail(r: Row)
    ensures Winner({r}) == r && Email({r}) == r.email && AnyDoNotMail({r}) == r.doNotMail
  {
    assert HasEmail({r}) == r.email.Some?;
  }

  /** The surviving contact's columns are the picks of its business. */
  lemma {:induction false} MergedLeadIsPicked(was: OldContacts, groups: seq<seq<Row>>, w: Row)
    requires IsTable(was) && AreMergeGroups(groups, RowsIn(was)) && w in RowsIn(was)
    requires GroupOf(RowsIn(was), w) != {} && Winner(GroupOf(RowsIn(was), w)) == w
    ensures LeadAfter(groups, w) == LeadFor(GroupOf(RowsIn(was), w)).(phone := w.phone)
  {
    var group := GroupOf(RowsIn(was), w);
    GroupIsGroup(RowsIn(was), w);
    if IsGrouped(groups, w) {
      var i :| 0 <= i < |groups| && w in groups[i];
      SurvivorIn(groups, RowsIn(was), i, w);
      assert w.doNotMail ==> AnyDoNotMail(group);
    } else {
      SingleEmail(w);
    }
  }

  /** The merge leaves exactly the businesses of its rows if and only if no filing has a phone: a
      contact merged or left alone keeps the phone of its row, and identity by filing has none. */
  lemma {:induction false} MergeIsBusinesses(leads: map<Id, Lead>, intake: map<Slot, Filing>, was: OldContacts, groups: seq<seq<Row>>)
    requires IsTable(was) && AreMergeGroups(groups, RowsIn(was)) && IsMerged(leads, intake, was, groups, true)
    ensures View(leads, intake) == Businesses(RowsIn(was)) <==> FilingsHaveNoPhone(RowsIn(was))
  {
    var rows := RowsIn(was);
    if FilingsHaveNoPhone(rows) {
      MergeIsBusinessesIf(leads, intake, was, groups);
    } else {
      var r :| r in rows && FamilyOf(r.source) == Some(Fbn) && r.phone.Some?;
      PhonedFilingDiffers(leads, intake, was, groups, r);
    }
  }

  predicate FilingsHaveNoPhone(rows: set<Row>) {
    forall r :: r in rows && FamilyOf(r.source) == Some(Fbn) ==> r.phone.None?
  }

  lemma {:induction false} MergeIsBusinessesIf(leads: map<Id, Lead>, intake: map<Slot, Filing>, was: OldContacts, groups: seq<seq<Row>>)
    requires IsTable(was) && AreMergeGroups(groups, RowsIn(was)) && IsMerged(leads, intake, was, groups, true)
    requires FilingsHaveNoPhone(RowsIn(was))
    ensures View(leads, intake) == Businesses(RowsIn(was))
  {
    var rows := RowsIn(was);
    forall r | r in rows ensures HasEntry(leads, intake, GroupOf(rows, r)) {
      assert HasTable(r);
      MergedEntry(leads, intake, was, groups, r);
    }
    forall s | s in intake ensures exists r :: r in rows && SlotOf(r) == s {
      SlotHasRow(was, s);
    }
    EntriesAreBusinesses(leads, intake, rows);
  }

  lemma {:induction false} SlotHasRow(was: OldContacts, s: Slot)
    requires IsTable(was) && s in Slots(was)
    ensures exists r :: r in RowsIn(was) && SlotOf(r) == s
  {
    var id :| id in was && HasTable(was[id]) && SlotOf(was[id]) == s;
    assert was[id] in RowsIn(was);
  }

  /** The counterexample to plain agreement, in general form. */
  lemma {:induction false} PhonedFilingDiffers(leads: map<Id, Lead>, intake: map<Slot, Filing>, was: OldContacts, groups: seq<seq<Row>>, r: Row)
    requires IsTable(was) && AreMergeGroups(groups, RowsIn(was)) && IsMerged(leads, intake, was, groups, true)
    requires r in RowsIn(was) && FamilyOf(r.source) == Some(Fbn) && r.phone.Some?
    ensures SlotOf(r) in Businesses(RowsIn(was)) && SlotOf(r) in View(leads, intake)
    ensures View(leads, intake)[SlotOf(r)].lead.phone == r.phone
    ensures Businesses(RowsIn(was))[SlotOf(r)].lead.phone == None
  {
    var rows, id := RowsIn(was), IdOf(was, r);
    SingleEmail(r);
    GroupIsGroup(rows, r);
    SurvivorIsWinner(was, groups, r);
    TableRow(was, id);
    assert IsAt(leads, intake, was, groups, true, id);
    MergedLeadIsPicked(was, groups, r);
    assert IsPrimary(rows, r);
    assert RowAt(rows, SlotOf(r)) == r;
  }

  // A fresh load.

  /** No contact but seeds, no rows, and no suppression to re-acquire. */
  ghost predicate IsFresh(b: Book) {
    && b.intake == map[] && b.tombs == {}
    && (forall id :: id in b.contacts ==> id < b.next && b.contacts[id].isSeed)
  }

  ghost predicate EntriesUpTo(b: Book, groups: seq<seq<Row>>) {
    && (forall i :: 0 <= i < |groups| ==> HasEntry(LeadsOf(b), b.intake, Rows(groups[i])))
    && (forall s :: s in b.intake ==> b.intake[s].contact < b.next)
  }

  /** Into a fresh book each group goes as a contact of its own. */
  lemma {:induction false} FreshEntries(b: Book, groups: seq<seq<Row>>, now: Time)
    requires IsFresh(b) && AreFileGroups(groups) && Fits(b, groups, now) && PhonesApart(groups)
    ensures var later := SettleAll(b, groups, now);
            EntriesUpTo(later, groups) && later.tombs == {} && BookInv(later)
  {
    FreshIsSound(b);
    SettleAllKeeps(b, groups, now);
    if groups != [] {
      var front, last := groups[..|groups| - 1], groups[|groups| - 1];
      var before := SettleAll(b, front, now);
      PhonesApartFront(groups);
      FreshEntries(b, front, now);
      OldHolders(b, groups, now);
      NoHolders(b, before, LeadPhone(last[0]));
      FreshStep(before, groups, now);
    }
  }

  lemma {:induction false} FreshStep(before: Book, groups: seq<seq<Row>>, now: Time)
    requires groups != [] && IsFileGroup(groups[|groups| - 1]) && AreNew(before, groups[|groups| - 1])
    requires BookInv(before) && before.tombs == {} && Holders(before, LeadPhone(groups[|groups| - 1][0])) == {}
    requires EntriesUpTo(before, groups[..|groups| - 1])
    ensures EntriesUpTo(Settle(before, groups[|groups| - 1], now), groups)
  {
    var front, last := groups[..|groups| - 1], groups[|groups| - 1];
    var later := Settle(before, last, now);
    CreatedEntry(before, last, now);
    forall i | 0 <= i < |front| ensures HasEntry(LeadsOf(later), later.intake, Rows(front[i])) {
      EntryStays(before, last, now, Rows(front[i]));
    }
    OneMoreEntry(later, groups);
  }

  lemma {:induction false} OneMoreEntry(later: Book, groups: seq<seq<Row>>)
    requires groups != [] && EntriesUpTo(later, groups[..|groups| - 1])
    requires HasEntry(LeadsOf(later), later.intake, Rows(groups[|groups| - 1]))
    ensures EntriesUpTo(later, groups)
  {
    var front := groups[..|groups| - 1];
    forall i | 0 <= i < |groups| ensures HasEntry(LeadsOf(later), later.intake, Rows(groups[i])) {
      assert i < |front| ==> groups[i] == front[i];
    }
  }

  lemma {:induction false} FreshIsSound(b: Book)
    requires IsFresh(b)
    ensures BookInv(b)
  {
  }

  lemma {:induction false} NoHolders(b: Book, before: Book, phone: Option<string>)
    requires IsFresh(b) && forall id :: IsHolder(before, id, phone) ==> IsHolder(b, id, phone)
    ensures Holders(before, phone) == {}
  {
    assert forall id :: !IsHolder(b, id, phone);
    assert forall id :: id in Holders(before, phone) ==> IsHolder(before, id, phone);
  }

  lemma {:induction false} NoTombs(b: Book, group: set<Row>)
    requires b.tombs == {} && group != {}
    ensures NewContact(b, group) == Contact(LeadFor(group), false, false, false)
  {
  }

  lemma {:induction false} CreatedEntry(b: Book, group: seq<Row>, now: Time)
    requires BookInv(b) && b.tombs == {} && IsFileGroup(group) && AreNew(b, group) && Holders(b, LeadPhone(group[0])) == {}
    requires forall s :: s in b.intake ==> b.intake[s].contact < b.next
    ensures var later := Settle(b, group, now);
            && HasEntry(LeadsOf(later), later.intake, Rows(group))
            && (forall s :: s in later.intake ==> later.intake[s].contact < later.next)
  {
    var later, w := Settle(b, group, now), Winner(Rows(group));
    NoTombs(b, Rows(group));
    WinnersKey(group);
    SettleCreates(b, group, now);
    AddedUnder(b.intake, group, b.next, Some(w.key), later.intake);
    assert IsEntry(LeadsOf(later), later.intake, Rows(group), b.next);
  }

  lemma {:induction false} EntryStays(b: Book, group: seq<Row>, now: Time, earlier: set<Row>)
    requires BookInv(b) && IsFileGroup(group) && AreNew(b, group) && Holders(b, LeadPhone(group[0])) == {}
    requires HasEntry(LeadsOf(b), b.intake, earlier)
    ensures var later := Settle(b, group, now);
            HasEntry(LeadsOf(later), later.intake, earlier)
  {
    var later := Settle(b, group, now);
    CreateLeaves(b, group, now);
    EntryKept(LeadsOf(b), b.intake, LeadsOf(later), later.intake, earlier, b.next);
  }

  /** Creating a contact leaves the others and their rows alone. */
  lemma {:induction false} CreateLeaves(b: Book, group: seq<Row>, now: Time)
    requires IsFileGroup(group) && AreNew(b, group) && Holders(b, LeadPhone(group[0])) == {}
    requires forall id :: id in b.contacts ==> id < b.next
    ensures var later := Settle(b, group, now);
            && (forall id :: id in LeadsOf(b) ==> id < b.next && id in LeadsOf(later) && LeadsOf(later)[id] == LeadsOf(b)[id])
            && (forall s :: s in b.intake ==> s in later.intake && later.intake[s] == b.intake[s])
            && (forall s :: s in later.intake && s !in b.intake ==> later.intake[s].contact == b.next)
  {
    CreateAddsOne(b, group, now);
    CreateAddsRows(b, group, now);
  }

  lemma {:induction false} CreateAddsOne(b: Book, group: seq<Row>, now: Time)
    requires IsFileGroup(group) && Holders(b, LeadPhone(group[0])) == {} && forall id :: id in b.contacts ==> id < b.next
    ensures var later := Settle(b, group, now);
            forall id :: id in LeadsOf(b) ==> id < b.next && id in LeadsOf(later) && LeadsOf(later)[id] == LeadsOf(b)[id]
  {
    var later := Settle(b, group, now);
    assert later.contacts == b.contacts[b.next := NewContact(b, Rows(group))];
  }

  lemma {:induction false} CreateAddsRows(b: Book, group: seq<Row>, now: Time)
    requires IsFileGroup(group) && AreNew(b, group) && Holders(b, LeadPhone(group[0])) == {}
    ensures var later := Settle(b, group, now);
            && (forall s :: s in b.intake ==> s in later.intake && later.intake[s] == b.intake[s])
            && (forall s :: s in later.intake && s !in b.intake ==> later.intake[s].contact == b.next)
  {
    SettleCreates(b, group, now);
    AddedUnder(b.intake, group, b.next, Some(Winner(Rows(group)).key), Settle(b, group, now).intake);
  }

  lemma {:induction false} AddedUnder(before: map<Slot, Filing>, group: seq<Row>, id: Id, primary: Option<Id>, after: map<Slot, Filing>)
    requires Adds(before, group, id, primary, after)
    ensures forall s :: s in after && s !in before ==> after[s].contact == id && after[s].row in Rows(group)
  {
    forall s | s in after && s !in before ensures after[s].contact == id && after[s].row in Rows(group) {
      var r :| r in group && HasTable(r) && SlotOf(r) == s;
    }
  }

  /** An entry outlives any change that leaves its contact and its rows alone. */
  lemma {:induction false} EntryKept(leads: map<Id, Lead>, intake: map<Slot, Filing>, leads': map<Id, Lead>, intake': map<Slot, Filing>,
                                     group: set<Row>, next: Id)
    requires HasEntry(leads, intake, group)
    requires forall id :: id in leads ==> id < next && id in leads' && leads'[id] == leads[id]
    requires forall s :: s in intake ==> s in intake' && intake'[s] == intake[s]
    requires forall s :: s in intake' && s !in intake ==> intake'[s].contact == next
    ensures HasEntry(leads', intake', group)
  {
    var id :| IsEntry(leads, intake, group, id);
    forall r | r in group ensures IsFiledAs(intake', r, id, r == Winner(group)) {
      assert IsFiledAs(intake, r, id, r == Winner(group));
    }
    assert IsEntry(leads', intake', group, id);
  }

  /** A file loaded into a fresh book leaves exactly the businesses of its accepted rows, whatever
      their order and however the ids fell. */
  lemma {:induction false} FreshLoadIsBusinesses(b: Book, lines: seq<Line>, source: string, now: Time, groups: seq<seq<Row>>, later: Book)
    requires IsFresh(b) && IsKnownSource(source) && !LacksKey(lines)
    requires IsLoad(b, lines, source, now, groups, later)
    ensures var rows := Rows(Accepted({}, lines, source));
            AreRows(rows) && View(LeadsOf(later), later.intake) == Businesses(rows)
  {
    var rows := Rows(Accepted({}, lines, source));
    AcceptedAreRows({}, lines, source, FamilyOf(source).value);
    FreshGroups(b, lines, source, now, groups, later);
    PartitionEntries(LeadsOf(later), later.intake, groups, rows);
    EntriesAreBusinesses(LeadsOf(later), later.intake, rows);
  }

  lemma {:induction false} PartitionEntries(leads: map<Id, Lead>, intake: map<Slot, Filing>, groups: seq<seq<Row>>, rows: set<Row>)
    requires IsPartition(groups, rows)
    requires forall i :: 0 <= i < |groups| ==> HasEntry(leads, intake, Rows(groups[i]))
    ensures forall r :: r in rows ==> HasEntry(leads, intake, GroupOf(rows, r))
  {
    forall r | r in rows ensures HasEntry(leads, intake, GroupOf(rows, r)) {
      var i :| 0 <= i < |groups| && r in groups[i];
      assert Rows(groups[i]) == GroupOf(rows, r);
    }
  }

  lemma {:induction false} FreshGroups(b: Book, lines: seq<Line>, source: string, now: Time, groups: seq<seq<Row>>, later: Book)
    requires IsFresh(b) && IsKnownSource(source) && !LacksKey(lines)
    requires IsLoad(b, lines, source, now, groups, later)
    ensures var rows := Rows(Accepted({}, lines, source));
            && IsPartition(groups, rows) && EntriesUpTo(later, groups)
            && forall s :: s in later.intake ==> exists r :: r in rows && HasTable(r) && SlotOf(r) == s
  {
    var family := FamilyOf(source).value;
    assert Taken(b, family) == {};
    AcceptedAreRows({}, lines, source, family);
    FreshIsSound(b);
    LoadParts(b, lines, source, groups);
    FreshPartition(b, groups, now, Rows(Accepted({}, lines, source)));
  }

  lemma {:induction false} FreshPartition(b: Book, groups: seq<seq<Row>>, now: Time, rows: set<Row>)
    requires IsFresh(b) && AreRows(rows) && AreFileGroups(groups) && IsPartition(groups, rows)
    requires AllNew(b, groups) && SlotsApart(groups) && PhonesApart(groups)
    ensures EntriesUpTo(SettleAll(b, groups, now), groups)
    ensures forall s :: s in SettleAll(b, groups, now).intake ==> exists r :: r in rows && HasTable(r) && SlotOf(r) == s
  {
    ApartFits(b, groups, now);
    FreshEntries(b, groups, now);
    SlotsOfPartition(groups, rows);
  }

  /** The claim of the shared pick: merging the old table, and loading the same rows into a fresh book,
      give the same contacts with the same primary rows, up to ids; except exactly when some filing
      carries a phone. */
  lemma {:induction false} MergeAgreesWithLoad(leads: map<Id, Lead>, intake: map<Slot, Filing>, was: OldContacts, merged: seq<seq<Row>>,
                                               b: Book, lines: seq<Line>, source: string, now: Time, groups: seq<seq<Row>>, later: Book)
    requires IsTable(was) && AreMergeGroups(merged, RowsIn(was)) && IsMerged(leads, intake, was, merged, true)
    requires IsFresh(b) && IsKnownSource(source) && !LacksKey(lines) && IsLoad(b, lines, source, now, groups, later)
    requires Rows(Accepted({}, lines, source)) == RowsIn(was)
    ensures View(leads, intake) == View(LeadsOf(later), later.intake)
            <==> FilingsHaveNoPhone(RowsIn(was))
  {
    MergeIsBusinesses(leads, intake, was, merged);
    FreshLoadIsBusinesses(b, lines, source, now, groups, later);
  }

  // A case of it.

  const FBN_SOURCE := "fbn-ca-2026"

  const FILING := Row(0, FBN_SOURCE, Some("+18055550100"), None, None, None, Address(None, None, None, None), None, "hvac", false)

  /** The line of a file that the filing comes from. */
  const LINE := Line(Some(0), FILING.phone, None, None, None, FILING.address, None, Some("hvac"), false)

  lemma {:induction false} FilingIsFbn()
    ensures IsKnownSource(FBN_SOURCE) && FamilyOf(FBN_SOURCE) == Some(Fbn) && HasTable(FILING) && SlotOf(FILING) == Slot(Fbn, 0)
  {
    assert "fbn-ca-" <= FBN_SOURCE && FBN_SOURCE[0] == 'f';
  }

  lemma {:induction false} OneFilingMerges(id: Id)
    ensures var was := map[id := FILING];
            && RowsIn(was) == {FILING} && IsTable(was) && AreMergeGroups([], RowsIn(was))
            && HasTable(FILING)
            && IsMerged(map[id := OwnLead(FILING)], map[SlotOf(FILING) := Filing(FILING, id, true)], was, [], true)
  {
    FilingIsFbn();
    var was := map[id := FILING];
    assert was[id] == FILING && RowsIn(was) == {FILING};
    assert AreRows({FILING});
    TableRow(was, id);
    assert Slots(was) == {SlotOf(FILING)};
    assert IsAt(map[id := OwnLead(FILING)], map[SlotOf(FILING) := Filing(FILING, id, true)], was, [], true, id);
  }

  lemma {:induction false} OneFilingLoads(now: Time)
    ensures AreFileGroups([[FILING]]) && !LacksKey([LINE]) && Rows(Accepted({}, [LINE], FBN_SOURCE)) == {FILING}
    ensures IsLoad(FRESH, [LINE], FBN_SOURCE, now, [[FILING]], SettleAll(FRESH, [[FILING]], now))
  {
    FilingIsFbn();
    assert Taken(FRESH, Fbn) == {};
    OneFilingAccepted();
    OneFilingGroups();
  }

  lemma {:induction false} OneFilingAccepted()
    ensures Accepted({}, [LINE], FBN_SOURCE) == [FILING] && Rows([FILING]) == {FILING}
  {
    assert [LINE][..0] == [] && RowOf(LINE, FBN_SOURCE) == FILING;
  }

  lemma {:induction false} OneFilingGroups()
    ensures AreFileGroups([[FILING]]) && IsPartition([[FILING]], {FILING})
  {
    FilingIsFbn();
    assert [[FILING]][0] == [FILING];
    assert Rows([FILING]) == {FILING} == GroupOf({FILING}, FILING);
  }

  /** One filing with a phone, merged from the old table under any id, and loaded into an empty book:
      the two descriptions differ, in that phone. */
  lemma {:induction false} OnePhonedFilingDiffers(id: Id, now: Time)
    ensures HasTable(FILING) && AreFileGroups([[FILING]])
    ensures var was := map[id := FILING];
            var leads, intake := map[id := OwnLead(FILING)], map[SlotOf(FILING) := Filing(FILING, id, true)];
            var later := SettleAll(FRESH, [[FILING]], now);
            && IsTable(was) && AreMergeGroups([], RowsIn(was)) && IsMerged(leads, intake, was, [], true)
            && IsFresh(FRESH) && IsLoad(FRESH, [LINE], FBN_SOURCE, now, [[FILING]], later)
            && Rows(Accepted({}, [LINE], FBN_SOURCE)) == RowsIn(was)
            && View(leads, intake) != View(LeadsOf(later), later.intake)
  {
    FilingIsFbn();
    OneFilingMerges(id);
    OneFilingLoads(now);
    var leads, intake := map[id := OwnLead(FILING)], map[SlotOf(FILING) := Filing(FILING, id, true)];
    assert FILING in RowsIn(map[id := FILING]);
    MergeAgreesWithLoad(leads, intake, map[id := FILING], [], FRESH, [LINE], FBN_SOURCE, now, [[FILING]],
                        SettleAll(FRESH, [[FILING]], now));
  }
}
