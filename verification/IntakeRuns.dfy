/** What every sequence of loads keeps, and what one load into a fresh book amounts to. */
module IntakeRuns {
  import opened Types
  import opened Identity
  import opened Intake

  // What filing a group does to the intake table.

  lemma {:induction false} FiledIntake(b: Book, group: seq<Row>, id: Id, primary: Option<Id>, now: Time)
    requires forall i :: 0 <= i < |group| ==> HasTable(group[i])
    ensures var after := Filed(b, group, id, primary, now).intake;
            && (forall s :: s in after <==> s in b.intake || HasSlot(group, s))
            && (forall s :: s in b.intake && !HasSlot(group, s) ==> after[s] == b.intake[s])
  {
    if group != [] {
      var front, last := group[..|group| - 1], group[|group| - 1];
      FiledIntake(b, front, id, primary, now);
      forall s ensures HasSlot(group, s) <==> HasSlot(front, s) || s == SlotOf(last) {
        HasSlotSnoc(group, s);
      }
    }
  }

  lemma {:induction false} FiledRow(b: Book, group: seq<Row>, id: Id, primary: Option<Id>, now: Time, i: nat)
    requires forall k :: 0 <= k < |group| ==> HasTable(group[k])
    requires forall k, j :: 0 <= k < j < |group| ==> SlotOf(group[k]) != SlotOf(group[j])
    requires i < |group|
    ensures SlotOf(group[i]) in Filed(b, group, id, primary, now).intake
    ensures Filed(b, group, id, primary, now).intake[SlotOf(group[i])] == Filing(group[i], id, primary == Some(group[i].key))
  {
    if i < |group| - 1 {
      FiledRow(b, group[..|group| - 1], id, primary, now, i);
    }
  }

  predicate HasSlot(group: seq<Row>, s: Slot)
    requires forall i :: 0 <= i < |group| ==> HasTable(group[i])
  {
    exists i :: 0 <= i < |group| && SlotOf(group[i]) == s
  }

  lemma {:induction false} HasSlotSnoc(group: seq<Row>, s: Slot)
    requires group != [] && forall i :: 0 <= i < |group| ==> HasTable(group[i])
    ensures HasSlot(group, s) <==> HasSlot(group[..|group| - 1], s) || s == SlotOf(group[|group| - 1])
  {
    var front := group[..|group| - 1];
    if HasSlot(front, s) {
      var i :| 0 <= i < |front| && SlotOf(front[i]) == s;
      assert SlotOf(group[i]) == s;
    }
  }

  /** None of the group's slots is taken. */
  ghost predicate AreNew(b: Book, group: seq<Row>) {
    forall r :: r in group && HasTable(r) ==> SlotOf(r) !in b.intake
  }

  lemma {:induction false} GroupSlots(group: seq<Row>)
    requires IsFileGroup(group)
    ensures forall i :: 0 <= i < |group| ==> HasTable(group[i])
    ensures forall i, j :: 0 <= i < j < |group| ==> SlotOf(group[i]) != SlotOf(group[j])
  {
    assert forall i :: 0 <= i < |group| ==> group[i] in group && group[i] in Rows(group);
  }

  /** The filing of a slot after a group: the group's own rows go to one contact; the rest stay. */
  lemma {:induction false} FiledAt(b: Book, group: seq<Row>, id: Id, primary: Option<Id>, now: Time)
    requires IsFileGroup(group) && AreNew(b, group)
    ensures Adds(b.intake, group, id, primary, Filed(b, group, id, primary, now).intake)
  {
    GroupSlots(group);
    FiledIntake(b, group, id, primary, now);
    assert forall i :: 0 <= i < |group| ==> group[i] in group;
    forall r | r in group && HasTable(r)
      ensures SlotOf(r) in Filed(b, group, id, primary, now).intake
      ensures Filed(b, group, id, primary, now).intake[SlotOf(r)] == Filing(r, id, primary == Some(r.key))
    {
      var i :| 0 <= i < |group| && group[i] == r;
      FiledRow(b, group, id, primary, now, i);
    }
    forall s ensures HasSlot(group, s) <==> IsSlotOf(group, s) {
      if IsSlotOf(group, s) {
        var r :| r in group && HasTable(r) && SlotOf(r) == s;
        var i :| 0 <= i < |group| && group[i] == r;
        assert SlotOf(group[i]) == s;
      }
    }
  }

  ghost predicate Adds(before: map<Slot, Filing>, group: seq<Row>, id: Id, primary: Option<Id>, after: map<Slot, Filing>) {
    && (forall s :: s in after <==> s in before || IsSlotOf(group, s))
    && (forall r :: r in group && HasTable(r) ==>
          SlotOf(r) in after && after[SlotOf(r)] == Filing(r, id, primary == Some(r.key)))
    && (forall s :: s in before ==> s in after && after[s] == before[s])
  }

  predicate IsSlotOf(group: seq<Row>, s: Slot) {
    exists r :: r in group && HasTable(r) && SlotOf(r) == s
  }

  // The invariant.

  ghost predicate FilingSound(b: Book, s: Slot) {
    s in b.intake ==>
      var f := b.intake[s];
      && HasTable(f.row) && SlotOf(f.row) == s
      && f.contact in b.contacts && !b.contacts[f.contact].isSeed
      && b.contacts[f.contact].lead.phone == LeadPhone(f.row)
  }

  ghost predicate IsPrimaryOf(b: Book, s: Slot, id: Id) {
    s in b.intake && b.intake[s].isPrimary && b.intake[s].contact == id
  }

  ghost predicate HasOnePrimary(b: Book, id: Id) {
    && (exists s :: IsPrimaryOf(b, s, id))
    && (forall s, t :: IsPrimaryOf(b, s, id) && IsPrimaryOf(b, t, id) ==> s == t)
  }

  /** Ids are minted in order; phones are unique; rows point at live contacts of their phone; every
      contact that is not a seed has exactly one primary row. */
  ghost predicate BookInv(b: Book) {
    && (forall id :: id in b.contacts ==> id < b.next)
    && PhonesUnique(b)
    && FilingsSound(b)
    && PrimariesSound(b)
  }

  ghost predicate PhonesUnique(b: Book) {
    forall id, other, phone :: IsHolder(b, id, phone) && IsHolder(b, other, phone) ==> id == other
  }

  ghost predicate FilingsSound(b: Book) {
    forall s :: s in b.intake ==> FilingSound(b, s)
  }

  ghost predicate PrimariesSound(b: Book) {
    forall id :: id in b.contacts && !b.contacts[id].isSeed ==> HasOnePrimary(b, id)
  }

  /** What no load takes back: a contact keeps everything but its do-not-mail flag, which only rises,
      and no filing changes. */
  ghost predicate Grows(b: Book, later: Book) {
    && b.next <= later.next
    && (forall id :: id in b.contacts ==>
          && id in later.contacts
          && later.contacts[id]
             == b.contacts[id].(lead := b.contacts[id].lead.(doNotMail := later.contacts[id].lead.doNotMail))
          && (b.contacts[id].lead.doNotMail ==> later.contacts[id].lead.doNotMail))
    && (forall s :: s in b.intake ==> s in later.intake && later.intake[s] == b.intake[s])
  }

  lemma {:induction false} GrowsTransitive(a: Book, b: Book, c: Book)
    requires Grows(a, b) && Grows(b, c)
    ensures Grows(a, c)
  {
  }

  /** Each row of the group is filed under one contact of its phone, which carries the group's do-not-mail. */
  ghost predicate IsFiled(b: Book, group: seq<Row>) {
    forall r {:trigger SlotOf(r)} :: r in group && HasTable(r) ==>
      && SlotOf(r) in b.intake && b.intake[SlotOf(r)].row == r
      && b.intake[SlotOf(r)].contact in b.contacts
      && (r.doNotMail ==> b.contacts[b.intake[SlotOf(r)].contact].lead.doNotMail)
  }

  function Flag(c: Contact, channel: Channel): bool {
    match channel
    case Mail => c.lead.doNotMail
    case Sms => c.doNotText
    case Voice => c.doNotCall
  }

  /** A contact created since `b` has every channel suppressed that a tombstone recalls for its rows. */
  ghost predicate IsReacquired(b: Book, later: Book, r: Row) {
    HasTable(r) && SlotOf(r) in later.intake && later.intake[SlotOf(r)].contact >= b.next
    && later.intake[SlotOf(r)].contact in later.contacts ==>
      forall t :: t in b.tombs && Recalls(t, r) ==> Flag(later.contacts[later.intake[SlotOf(r)].contact], t.channel)
  }

  lemma {:induction false} WinnersKey(group: seq<Row>)
    requires IsFileGroup(group)
    ensures var w := Winner(Rows(group)); w in group && forall r :: r in group && r.key == w.key ==> r == w
  {
    assert forall r :: r in group ==> r in Rows(group);
  }

  lemma {:induction false} SamePrimaries(b: Book, later: Book, id: Id)
    requires HasOnePrimary(b, id)
    requires forall s :: s in b.intake ==> s in later.intake && later.intake[s] == b.intake[s]
    requires forall s :: s in later.intake && s !in b.intake ==> !later.intake[s].isPrimary || later.intake[s].contact != id
    ensures HasOnePrimary(later, id)
  {
    var s :| IsPrimaryOf(b, s, id);
    assert IsPrimaryOf(later, s, id);
    forall t | IsPrimaryOf(later, t, id) ensures t == s {
      assert IsPrimaryOf(b, t, id);
    }
  }

  /** Old filings stay sound while their contacts keep their phone; new ones are sound by their group's. */
  lemma {:induction false} FilingsStay(b: Book, later: Book, group: seq<Row>, id: Id, primary: Option<Id>)
    requires FilingsSound(b) && IsFileGroup(group) && Adds(b.intake, group, id, primary, later.intake)
    requires forall c :: c in b.contacts ==> c in later.contacts && later.contacts[c].isSeed == b.contacts[c].isSeed
                                             && later.contacts[c].lead.phone == b.contacts[c].lead.phone
    requires id in later.contacts && !later.contacts[id].isSeed && later.contacts[id].lead.phone == LeadPhone(group[0])
    ensures FilingsSound(later)
  {
    forall s | s in later.intake ensures FilingSound(later, s) {
      if s in b.intake {
        assert FilingSound(b, s);
      } else {
        var r :| r in group && HasTable(r) && SlotOf(r) == s;
      }
    }
  }

  /** A group's contact carries the group's do-not-mail. */
  lemma {:induction false} GroupIsFiled(before: map<Slot, Filing>, later: Book, group: seq<Row>, id: Id, primary: Option<Id>)
    requires Adds(before, group, id, primary, later.intake) && id in later.contacts
    requires AnyDoNotMail(Rows(group)) ==> later.contacts[id].lead.doNotMail
    ensures IsFiled(later, group)
  {
    forall r | r in group && r.doNotMail ensures AnyDoNotMail(Rows(group)) {
      assert r in Rows(group);
    }
  }

  lemma {:induction false} AttachKeeps(b: Book, later: Book, group: seq<Row>, id: Id)
    requires BookInv(b) && IsFileGroup(group) && IsHolder(b, id, LeadPhone(group[0]))
    requires later.contacts == b.contacts[id := Attached(b.contacts[id], Rows(group))] && later.next == b.next
    requires Adds(b.intake, group, id, None, later.intake)
    ensures BookInv(later) && Grows(b, later) && IsFiled(later, group)
  {
    AttachContact(b, later, group, id);
    FilingsStay(b, later, group, id, None);
    GroupIsFiled(b.intake, later, group, id, None);
    SamePhones(b, later);
    AttachPrimaries(b, later, group, id);
  }

  lemma {:induction false} AttachContact(b: Book, later: Book, group: seq<Row>, id: Id)
    requires id in b.contacts && later.contacts == b.contacts[id := Attached(b.contacts[id], Rows(group))]
    ensures forall c :: c in later.contacts <==> c in b.contacts
    ensures forall c :: c in b.contacts ==>
              && later.contacts[c].isSeed == b.contacts[c].isSeed
              && later.contacts[c].lead.phone == b.contacts[c].lead.phone
              && later.contacts[c] == b.contacts[c].(lead := b.contacts[c].lead.(doNotMail := later.contacts[c].lead.doNotMail))
              && (b.contacts[c].lead.doNotMail ==> later.contacts[c].lead.doNotMail)
    ensures AnyDoNotMail(Rows(group)) ==> later.contacts[id].lead.doNotMail
  {
  }

  lemma {:induction false} SamePhones(b: Book, later: Book)
    requires PhonesUnique(b)
    requires forall c :: c in later.contacts && !later.contacts[c].isSeed ==>
               c in b.contacts && !b.contacts[c].isSeed && later.contacts[c].lead.phone == b.contacts[c].lead.phone
    ensures PhonesUnique(later)
  {
    forall c, other, phone | IsHolder(later, c, phone) && IsHolder(later, other, phone) ensures c == other {
      assert IsHolder(b, c, phone) && IsHolder(b, other, phone);
    }
  }

  lemma {:induction false} AttachPrimaries(b: Book, later: Book, group: seq<Row>, id: Id)
    requires PrimariesSound(b) && Adds(b.intake, group, id, None, later.intake)
    requires forall c :: c in later.contacts ==> c in b.contacts && later.contacts[c].isSeed == b.contacts[c].isSeed
    ensures PrimariesSound(later)
  {
    forall s | s in later.intake && s !in b.intake ensures !later.intake[s].isPrimary {
      var r :| r in group && HasTable(r) && SlotOf(r) == s;
    }
    forall c | c in later.contacts && !later.contacts[c].isSeed ensures HasOnePrimary(later, c) {
      assert HasOnePrimary(b, c);
      SamePrimaries(b, later, c);
    }
  }

  lemma {:induction false} CreateKeeps(b: Book, later: Book, group: seq<Row>)
    requires BookInv(b) && IsFileGroup(group) && Holders(b, LeadPhone(group[0])) == {}
    requires later.contacts == b.contacts[b.next := NewContact(b, Rows(group))] && later.next == b.next + 1
    requires Adds(b.intake, group, b.next, Some(Winner(Rows(group)).key), later.intake)
    ensures BookInv(later) && Grows(b, later) && IsFiled(later, group)
  {
    var w := Winner(Rows(group));
    WinnersKey(group);
    assert LeadPhone(w) == LeadPhone(group[0]);
    FilingsStay(b, later, group, b.next, Some(w.key));
    GroupIsFiled(b.intake, later, group, b.next, Some(w.key));
    CreatePhones(b, later, b.next, LeadPhone(w));
    CreatePrimaries(b, later, group, b.next);
    CreateGrows(b, later);
  }

  lemma {:induction false} CreateGrows(b: Book, later: Book)
    requires b.next !in b.contacts && b.next in later.contacts && later.next == b.next + 1
    requires later.contacts == b.contacts[b.next := later.contacts[b.next]]
    requires forall s :: s in b.intake ==> s in later.intake && later.intake[s] == b.intake[s]
    ensures Grows(b, later)
  {
  }

  lemma {:induction false} CreatePhones(b: Book, later: Book, id: Id, phone: Option<string>)
    requires PhonesUnique(b) && Holders(b, phone) == {} && id !in b.contacts && id in later.contacts
    requires later.contacts == b.contacts[id := later.contacts[id]] && later.contacts[id].lead.phone == phone
    ensures PhonesUnique(later)
  {
    forall c, other, p | IsHolder(later, c, p) && IsHolder(later, other, p) ensures c == other {
      assert c != id ==> IsHolder(b, c, p);
      assert other != id ==> IsHolder(b, other, p);
      assert IsHolder(b, c, phone) ==> c in Holders(b, phone);
      assert IsHolder(b, other, phone) ==> other in Holders(b, phone);
    }
  }

  lemma {:induction false} CreatePrimaries(b: Book, later: Book, group: seq<Row>, id: Id)
    requires FilingsSound(b) && PrimariesSound(b) && IsFileGroup(group) && id !in b.contacts
    requires Adds(b.intake, group, id, Some(Winner(Rows(group)).key), later.intake)
    requires forall c :: c in later.contacts && c != id ==> c in b.contacts && later.contacts[c].isSeed == b.contacts[c].isSeed
    ensures PrimariesSound(later)
  {
    forall s | s in b.intake ensures b.intake[s].contact != id {
      assert FilingSound(b, s);
    }
    forall s | s in later.intake && s !in b.intake ensures later.intake[s].contact == id {
      var r :| r in group && HasTable(r) && SlotOf(r) == s;
    }
    forall c | c in later.contacts && !later.contacts[c].isSeed ensures HasOnePrimary(later, c) {
      if c == id {
        CreatedHasOne(b, later, group, id);
      } else {
        assert HasOnePrimary(b, c);
        SamePrimaries(b, later, c);
      }
    }
  }

  lemma {:induction false} CreatedHasOne(b: Book, later: Book, group: seq<Row>, id: Id)
    requires IsFileGroup(group) && forall s :: s in b.intake ==> b.intake[s].contact != id
    requires Adds(b.intake, group, id, Some(Winner(Rows(group)).key), later.intake)
    ensures HasOnePrimary(later, id)
  {
    var w := Winner(Rows(group));
    WinnersKey(group);
    assert IsPrimaryOf(later, SlotOf(w), id);
    forall s | IsPrimaryOf(later, s, id) ensures s == SlotOf(w) {
      var r :| r in group && HasTable(r) && SlotOf(r) == s;
    }
  }

  /** The group joined its holder: its rows under that contact, none of them primary. */
  ghost predicate IsAttach(b: Book, group: seq<Row>, id: Id, later: Book)
    requires id in b.contacts
  {
    && later.contacts == b.contacts[id := Attached(b.contacts[id], Rows(group))] && later.next == b.next && later.tombs == b.tombs
    && Adds(b.intake, group, id, None, later.intake)
  }

  /** The group became a contact: its rows under the new id, the winner's primary. */
  ghost predicate IsCreate(b: Book, group: seq<Row>, later: Book)
    requires group != []
  {
    assert group[0] in Rows(group);
    && later.contacts == b.contacts[b.next := NewContact(b, Rows(group))] && later.next == b.next + 1 && later.tombs == b.tombs
    && Adds(b.intake, group, b.next, Some(Winner(Rows(group)).key), later.intake)
  }

  lemma {:induction false} SettleAttaches(b: Book, group: seq<Row>, now: Time)
    requires IsFileGroup(group) && AreNew(b, group) && Holders(b, LeadPhone(group[0])) != {}
    ensures IsAttach(b, group, MinOf(Holders(b, LeadPhone(group[0]))), Settle(b, group, now))
  {
    var id := MinOf(Holders(b, LeadPhone(group[0])));
    FiledAt(b.(contacts := b.contacts[id := Attached(b.contacts[id], Rows(group))]), group, id, None, now);
  }

  lemma {:induction false} SettleCreates(b: Book, group: seq<Row>, now: Time)
    requires IsFileGroup(group) && AreNew(b, group) && Holders(b, LeadPhone(group[0])) == {}
    ensures IsCreate(b, group, Settle(b, group, now))
  {
    FiledAt(b.(contacts := b.contacts[b.next := NewContact(b, Rows(group))], next := b.next + 1),
            group, b.next, Some(Winner(Rows(group)).key), now);
  }

  lemma {:induction false} SettleIntake(b: Book, group: seq<Row>, now: Time)
    requires IsFileGroup(group) && AreNew(b, group)
    ensures forall s :: s in Settle(b, group, now).intake <==> s in b.intake || IsSlotOf(group, s)
  {
    var holders := Holders(b, LeadPhone(group[0]));
    if holders != {} {
      SettleAttaches(b, group, now);
    } else {
      SettleCreates(b, group, now);
    }
  }

  /** One group, attached or created. */
  lemma {:induction false} SettleKeeps(b: Book, group: seq<Row>, now: Time)
    requires BookInv(b) && IsFileGroup(group) && AreNew(b, group)
    ensures var later := Settle(b, group, now);
            BookInv(later) && Grows(b, later) && IsFiled(later, group) && later.tombs == b.tombs
  {
    if Holders(b, LeadPhone(group[0])) != {} {
      SettleAttached(b, group, now);
    } else {
      SettleCreated(b, group, now);
    }
  }

  lemma {:induction false} SettleAttached(b: Book, group: seq<Row>, now: Time)
    requires BookInv(b) && IsFileGroup(group) && AreNew(b, group) && Holders(b, LeadPhone(group[0])) != {}
    ensures var later := Settle(b, group, now);
            BookInv(later) && Grows(b, later) && IsFiled(later, group) && later.tombs == b.tombs
  {
    var id := MinOf(Holders(b, LeadPhone(group[0])));
    SettleAttaches(b, group, now);
    AttachKeeps(b, Settle(b, group, now), group, id);
  }

  lemma {:induction false} SettleCreated(b: Book, group: seq<Row>, now: Time)
    requires BookInv(b) && IsFileGroup(group) && AreNew(b, group) && Holders(b, LeadPhone(group[0])) == {}
    ensures var later := Settle(b, group, now);
            BookInv(later) && Grows(b, later) && IsFiled(later, group) && later.tombs == b.tombs
  {
    SettleCreates(b, group, now);
    CreateKeeps(b, Settle(b, group, now), group);
  }

  /** A group whose phone a tombstone names re-acquires its channels when it becomes a new contact. */
  lemma {:induction false} SettleReacquires(b: Book, group: seq<Row>, now: Time, r: Row)
    requires BookInv(b) && IsFileGroup(group) && AreNew(b, group) && r in group
    ensures IsReacquired(b, Settle(b, group, now), r)
  {
    var holders := Holders(b, LeadPhone(group[0]));
    if holders == {} {
      SettleCreates(b, group, now);
      forall t | t in b.tombs && Recalls(t, r) ensures Flag(NewContact(b, Rows(group)), t.channel) {
        assert r in Rows(group);
        assert IsRecalled(b, Rows(group), t.channel);
      }
    } else {
      SettleAttaches(b, group, now);
    }
  }

  ghost predicate AllNew(b: Book, groups: seq<seq<Row>>) {
    forall i :: 0 <= i < |groups| ==> AreNew(b, groups[i])
  }

  ghost predicate SlotsApart(groups: seq<seq<Row>>) {
    forall i, j, r, q :: 0 <= i < j < |groups| && r in groups[i] && q in groups[j] && HasTable(r) && HasTable(q) ==>
      SlotOf(r) != SlotOf(q)
  }

  ghost predicate SomeSlot(groups: seq<seq<Row>>, s: Slot) {
    exists i :: 0 <= i < |groups| && IsSlotOf(groups[i], s)
  }

  /** The last group's slots are still free when its turn comes. */
  lemma {:induction false} LastIsNew(b: Book, groups: seq<seq<Row>>, before: Book)
    requires groups != [] && AllNew(b, groups) && SlotsApart(groups)
    requires forall s :: s in before.intake <==> s in b.intake || SomeSlot(groups[..|groups| - 1], s)
    ensures AreNew(before, groups[|groups| - 1])
  {
    var front, last := groups[..|groups| - 1], groups[|groups| - 1];
    forall r | r in last && HasTable(r) ensures !SomeSlot(front, SlotOf(r)) && SlotOf(r) !in b.intake {
      assert AreNew(b, groups[|groups| - 1]);
      forall i, q | 0 <= i < |front| && q in front[i] && HasTable(q) ensures SlotOf(q) != SlotOf(r) {
        assert q in groups[i];
      }
    }
  }

  /** Each group's slots are free when its turn comes. */
  ghost predicate Fits(b: Book, groups: seq<seq<Row>>, now: Time)
    requires AreFileGroups(groups)
  {
    groups != [] ==>
      && Fits(b, groups[..|groups| - 1], now)
      && AreNew(SettleAll(b, groups[..|groups| - 1], now), groups[|groups| - 1])
  }

  /** Groups with slots of their own, none of them taken, fit. */
  lemma {:induction false} ApartFits(b: Book, groups: seq<seq<Row>>, now: Time)
    requires AreFileGroups(groups) && AllNew(b, groups) && SlotsApart(groups)
    ensures Fits(b, groups, now)
    ensures forall s :: s in SettleAll(b, groups, now).intake <==> s in b.intake || SomeSlot(groups, s)
  {
    if groups != [] {
      var front, last := groups[..|groups| - 1], groups[|groups| - 1];
      var before := SettleAll(b, front, now);
      FrontOfFile(b, groups);
      ApartFits(b, front, now);
      LastIsNew(b, groups, before);
      SettleIntake(before, last, now);
      SomeSlotSnoc(groups);
    }
  }

  lemma {:induction false} FrontOfFile(b: Book, groups: seq<seq<Row>>)
    requires groups != [] && AreFileGroups(groups) && AllNew(b, groups) && SlotsApart(groups)
    ensures var front := groups[..|groups| - 1];
            AreFileGroups(front) && AllNew(b, front) && SlotsApart(front)
  {
    var front := groups[..|groups| - 1];
    assert forall i :: 0 <= i < |front| ==> front[i] == groups[i];
  }

  /** Every group of a file, one after another. */
  lemma {:induction false} SettleAllKeeps(b: Book, groups: seq<seq<Row>>, now: Time)
    requires BookInv(b) && AreFileGroups(groups) && Fits(b, groups, now)
    ensures var later := SettleAll(b, groups, now);
            BookInv(later) && Grows(b, later) && later.tombs == b.tombs
  {
    if groups != [] {
      var front, last := groups[..|groups| - 1], groups[|groups| - 1];
      var before := SettleAll(b, front, now);
      SettleAllKeeps(b, front, now);
      SettleKeeps(before, last, now);
      GrowsTransitive(b, before, Settle(before, last, now));
    }
  }

  lemma {:induction false} EachIsFiled(b: Book, groups: seq<seq<Row>>, now: Time, i: nat)
    requires BookInv(b) && AreFileGroups(groups) && Fits(b, groups, now) && i < |groups|
    ensures IsFiled(SettleAll(b, groups, now), groups[i])
  {
    LastStep(b, groups, now);
    if i < |groups| - 1 {
      var front := groups[..|groups| - 1];
      EachIsFiled(b, front, now, i);
      FiledStays(SettleAll(b, front, now), SettleAll(b, groups, now), groups[i]);
    } else {
      assert i == |groups| - 1;
    }
  }

  lemma {:induction false} LastStep(b: Book, groups: seq<seq<Row>>, now: Time)
    requires BookInv(b) && AreFileGroups(groups) && Fits(b, groups, now) && groups != []
    ensures Grows(SettleAll(b, groups[..|groups| - 1], now), SettleAll(b, groups, now))
    ensures IsFiled(SettleAll(b, groups, now), groups[|groups| - 1])
  {
    SettleAllKeeps(b, groups[..|groups| - 1], now);
    SettleKeeps(SettleAll(b, groups[..|groups| - 1], now), groups[|groups| - 1], now);
  }

  /** No two groups of a file share a phone. */
  ghost predicate PhonesApart(groups: seq<seq<Row>>) {
    forall i, j :: 0 <= i < j < |groups| && groups[i] != [] && groups[j] != [] && LeadPhone(groups[i][0]).Some? ==>
      LeadPhone(groups[i][0]) != LeadPhone(groups[j][0])
  }

  predicate IsPhoneOf(groups: seq<seq<Row>>, phone: Option<string>) {
    exists i :: 0 <= i < |groups| && groups[i] != [] && LeadPhone(groups[i][0]) == phone
  }

  /** Whoever holds a phone after some groups held it before, or was created for one of them. */
  lemma {:induction false} HoldersAfter(b: Book, groups: seq<seq<Row>>, now: Time, id: Id, phone: Option<string>)
    requires AreFileGroups(groups) && IsHolder(SettleAll(b, groups, now), id, phone)
    ensures IsHolder(b, id, phone) || IsPhoneOf(groups, phone)
  {
    if groups != [] {
      var front, last := groups[..|groups| - 1], groups[|groups| - 1];
      var before := SettleAll(b, front, now);
      HolderBefore(before, last, now, id, phone);
      if IsHolder(before, id, phone) {
        HoldersAfter(b, front, now, id, phone);
        if IsPhoneOf(front, phone) {
          var i :| 0 <= i < |front| && front[i] != [] && LeadPhone(front[i][0]) == phone;
          assert groups[i] == front[i];
        }
      }
    }
  }

  lemma {:induction false} HolderBefore(b: Book, group: seq<Row>, now: Time, id: Id, phone: Option<string>)
    requires IsFileGroup(group) && IsHolder(Settle(b, group, now), id, phone)
    ensures IsHolder(b, id, phone) || (id == b.next && phone == LeadPhone(group[0]))
  {
    if Holders(b, LeadPhone(group[0])) == {} {
      WinnersKey(group);
    }
  }

  /** A contact created by this file has every channel its rows' tombstones recall. */
  lemma {:induction false} EachReacquired(b: Book, groups: seq<seq<Row>>, now: Time, i: nat, r: Row)
    requires BookInv(b) && AreFileGroups(groups) && Fits(b, groups, now) && PhonesApart(groups)
    requires i < |groups| && r in groups[i]
    ensures IsReacquired(b, SettleAll(b, groups, now), r)
  {
    var front, last := groups[..|groups| - 1], groups[|groups| - 1];
    var before := SettleAll(b, front, now);
    SettleAllKeeps(b, front, now);
    if i < |front| {
      PhonesApartFront(groups);
      EachReacquired(b, front, now, i, r);
      EachIsFiled(b, front, now, i);
      SettleKeeps(before, last, now);
      ReacquiredStays(b, before, Settle(before, last, now), front[i], r);
    } else {
      LastReacquired(b, groups, now, r);
    }
  }

  lemma {:induction false} PhonesApartFront(groups: seq<seq<Row>>)
    requires PhonesApart(groups) && groups != []
    ensures PhonesApart(groups[..|groups| - 1])
  {
    assert forall k :: 0 <= k < |groups| - 1 ==> groups[..|groups| - 1][k] == groups[k];
  }

  lemma {:induction false} LastReacquired(b: Book, groups: seq<seq<Row>>, now: Time, r: Row)
    requires BookInv(b) && AreFileGroups(groups) && Fits(b, groups, now) && PhonesApart(groups)
    requires groups != [] && r in groups[|groups| - 1]
    ensures IsReacquired(b, SettleAll(b, groups, now), r)
  {
    var front, last := groups[..|groups| - 1], groups[|groups| - 1];
    SettleAllKeeps(b, front, now);
    SettleReacquires(SettleAll(b, front, now), last, now, r);
    OldHolders(b, groups, now);
    AttachedIsOld(b, SettleAll(b, front, now), last, now, r);
  }

  /** A group attaches only to a contact from before the file. */
  lemma {:induction false} OldHolders(b: Book, groups: seq<seq<Row>>, now: Time)
    requires AreFileGroups(groups) && PhonesApart(groups) && groups != []
    ensures var phone := LeadPhone(groups[|groups| - 1][0]);
            forall id :: IsHolder(SettleAll(b, groups[..|groups| - 1], now), id, phone) ==> IsHolder(b, id, phone)
  {
    var front, phone := groups[..|groups| - 1], LeadPhone(groups[|groups| - 1][0]);
    forall id | IsHolder(SettleAll(b, front, now), id, phone) ensures IsHolder(b, id, phone) {
      HoldersAfter(b, front, now, id, phone);
      assert forall k :: 0 <= k < |front| ==> front[k] == groups[k];
    }
  }

  lemma {:induction false} AttachedIsOld(b: Book, before: Book, group: seq<Row>, now: Time, r: Row)
    requires (forall id :: id in b.contacts ==> id < b.next) && before.tombs == b.tombs
    requires IsFileGroup(group) && r in group && AreNew(before, group)
    requires IsReacquired(before, Settle(before, group, now), r)
    requires forall id :: IsHolder(before, id, LeadPhone(group[0])) ==> IsHolder(b, id, LeadPhone(group[0]))
    ensures IsReacquired(b, Settle(before, group, now), r)
  {
    var holders := Holders(before, LeadPhone(group[0]));
    FiledTo(before, group, now, r);
    if holders != {} {
      assert IsHolder(b, MinOf(holders), LeadPhone(group[0]));
    }
  }

  /** Which contact a group's rows are filed under. */
  lemma {:induction false} FiledTo(b: Book, group: seq<Row>, now: Time, r: Row)
    requires IsFileGroup(group) && r in group && AreNew(b, group)
    ensures var holders := Holders(b, LeadPhone(group[0]));
            && SlotOf(r) in Settle(b, group, now).intake
            && Settle(b, group, now).intake[SlotOf(r)].contact == if holders != {} then MinOf(holders) else b.next
  {
    if Holders(b, LeadPhone(group[0])) != {} {
      FiledToHolder(b, group, now, r);
    } else {
      FiledToNew(b, group, now, r);
    }
  }

  lemma {:induction false} FiledToNew(b: Book, group: seq<Row>, now: Time, r: Row)
    requires IsFileGroup(group) && r in group && AreNew(b, group) && Holders(b, LeadPhone(group[0])) == {}
    ensures SlotOf(r) in Settle(b, group, now).intake && Settle(b, group, now).intake[SlotOf(r)].contact == b.next
  {
    SettleCreates(b, group, now);
  }

  lemma {:induction false} FiledToHolder(b: Book, group: seq<Row>, now: Time, r: Row)
    requires IsFileGroup(group) && r in group && AreNew(b, group) && Holders(b, LeadPhone(group[0])) != {}
    ensures SlotOf(r) in Settle(b, group, now).intake
    ensures Settle(b, group, now).intake[SlotOf(r)].contact == MinOf(Holders(b, LeadPhone(group[0])))
  {
    SettleAttaches(b, group, now);
  }

  lemma {:induction false} SomeSlotSnoc(groups: seq<seq<Row>>)
    requires groups != []
    ensures forall s :: SomeSlot(groups, s) <==> SomeSlot(groups[..|groups| - 1], s) || IsSlotOf(groups[|groups| - 1], s)
  {
    var front := groups[..|groups| - 1];
    forall s ensures SomeSlot(groups, s) <==> SomeSlot(front, s) || IsSlotOf(groups[|groups| - 1], s) {
      if SomeSlot(front, s) {
        var i :| 0 <= i < |front| && IsSlotOf(front[i], s);
        assert IsSlotOf(groups[i], s);
      }
      if SomeSlot(groups, s) && !IsSlotOf(groups[|groups| - 1], s) {
        var i :| 0 <= i < |groups| && IsSlotOf(groups[i], s);
        assert IsSlotOf(front[i], s);
      }
    }
  }

  lemma {:induction false} FiledStays(b: Book, later: Book, group: seq<Row>)
    requires Grows(b, later) && IsFiled(b, group)
    ensures IsFiled(later, group)
  {
  }

  lemma {:induction false} ReacquiredStays(b: Book, before: Book, later: Book, group: seq<Row>, r: Row)
    requires Grows(before, later) && IsFiled(before, group) && r in group && IsReacquired(b, before, r)
    ensures IsReacquired(b, later, r)
  {
  }

  // Whole files, and runs of them.

  lemma {:induction false} PartitionPhonesApart(groups: seq<seq<Row>>, rows: set<Row>)
    requires AreRows(rows) && IsPartition(groups, rows)
    ensures PhonesApart(groups)
  {
    forall i, j | 0 <= i < j < |groups| && LeadPhone(groups[i][0]).Some?
      ensures LeadPhone(groups[i][0]) != LeadPhone(groups[j][0])
    {
      var r, q := groups[i][0], groups[j][0];
      assert r in groups[i] && q in groups[j];
      assert q in Rows(groups[j]) && q !in Rows(groups[i]) && q !in GroupOf(rows, r);
    }
  }

  lemma {:induction false} SlotsOfPartition(groups: seq<seq<Row>>, rows: set<Row>)
    requires AreRows(rows) && IsPartition(groups, rows)
    ensures SlotsApart(groups) && PhonesApart(groups)
    ensures forall s :: SomeSlot(groups, s) <==> exists r :: r in rows && SlotOf(r) == s
  {
    PartitionPhonesApart(groups, rows);
    forall i, j, r, q | 0 <= i < j < |groups| && r in groups[i] && q in groups[j] && HasTable(r) && HasTable(q)
      ensures SlotOf(r) != SlotOf(q)
    {
      assert r in Rows(groups[i]) && q in Rows(groups[j]);
    }
    forall s ensures SomeSlot(groups, s) <==> exists r :: r in rows && SlotOf(r) == s {
      if r :| r in rows && SlotOf(r) == s {
        var i :| 0 <= i < |groups| && r in groups[i];
        assert IsSlotOf(groups[i], s);
      }
    }
  }

  /** What LoadList leaves, given how it grouped the file. */
  ghost predicate IsLoad(b: Book, lines: seq<Line>, source: string, now: Time, groups: seq<seq<Row>>, later: Book) {
    if !IsKnownSource(source) || LacksKey(lines) then later == b
    else
      && IsPartition(groups, Rows(Accepted(Taken(b, FamilyOf(source).value), lines, source)))
      && AreFileGroups(groups)
      && later == SettleAll(b, groups, now)
  }

  /** A load keeps the book sound and takes nothing back; every accepted row is filed; a new contact has
      every suppression its tombstones remember. */
  lemma {:induction false} LoadKeeps(b: Book, lines: seq<Line>, source: string, now: Time, groups: seq<seq<Row>>, later: Book)
    requires BookInv(b) && IsLoad(b, lines, source, now, groups, later)
    ensures BookInv(later) && Grows(b, later)
    ensures IsKnownSource(source) && !LacksKey(lines) ==>
              forall r :: r in Accepted(Taken(b, FamilyOf(source).value), lines, source) ==>
                && HasTable(r) && SlotOf(r) in later.intake && later.intake[SlotOf(r)].row == r
                && IsReacquired(b, later, r)
  {
    if IsKnownSource(source) && !LacksKey(lines) {
      LoadParts(b, lines, source, groups);
      ApartFits(b, groups, now);
      SettleAllKeeps(b, groups, now);
      forall r | r in Accepted(Taken(b, FamilyOf(source).value), lines, source)
        ensures HasTable(r) && SlotOf(r) in later.intake && later.intake[SlotOf(r)].row == r && IsReacquired(b, later, r)
      {
        assert r in Rows(Accepted(Taken(b, FamilyOf(source).value), lines, source));
        var i :| 0 <= i < |groups| && r in groups[i];
        EachIsFiled(b, groups, now, i);
        EachReacquired(b, groups, now, i, r);
      }
    }
  }

  /** The shape of a file's groups. */
  lemma {:induction false} LoadParts(b: Book, lines: seq<Line>, source: string, groups: seq<seq<Row>>)
    requires BookInv(b) && IsKnownSource(source)
    requires IsPartition(groups, Rows(Accepted(Taken(b, FamilyOf(source).value), lines, source)))
    ensures AllNew(b, groups) && SlotsApart(groups) && PhonesApart(groups)
  {
    var family := FamilyOf(source).value;
    AcceptedAreRows(Taken(b, family), lines, source, family);
    SlotsOfPartition(groups, Rows(Accepted(Taken(b, family), lines, source)));
    AcceptedAreNew(b, lines, source, groups);
  }

  lemma {:induction false} AcceptedAreNew(b: Book, lines: seq<Line>, source: string, groups: seq<seq<Row>>)
    requires BookInv(b) && IsKnownSource(source)
    requires IsPartition(groups, Rows(Accepted(Taken(b, FamilyOf(source).value), lines, source)))
    ensures AllNew(b, groups)
  {
    var family := FamilyOf(source).value;
    var rows := Accepted(Taken(b, family), lines, source);
    assert forall s :: s in b.intake && s.family == family ==> s.key in Taken(b, family);
    forall i, r | 0 <= i < |groups| && r in groups[i] && HasTable(r) ensures SlotOf(r) !in b.intake {
      assert r in Rows(rows) && r.key !in Taken(b, family);
    }
  }

  /** Loading the same file again, at any later time, changes nothing. */
  lemma {:induction false} ReloadIsNothing(b: Book, lines: seq<Line>, source: string, now: Time, groups: seq<seq<Row>>, later: Book,
                                           again: Time, groups': seq<seq<Row>>, last: Book)
    requires BookInv(b) && IsLoad(b, lines, source, now, groups, later) && IsLoad(later, lines, source, again, groups', last)
    ensures last == later
  {
    if IsKnownSource(source) && !LacksKey(lines) {
      var family := FamilyOf(source).value;
      LoadKeeps(b, lines, source, now, groups, later);
      EverythingTaken(b, lines, source, now, groups, later);
      NothingAccepted(Taken(later, family), lines, source);
      NoRowsNoGroups(groups', Rows(Accepted(Taken(later, family), lines, source)));
    }
  }

  lemma {:induction false} NoRowsNoGroups(groups: seq<seq<Row>>, rows: set<Row>)
    requires IsPartition(groups, rows)
    ensures groups == [] || rows != {}
  {
    if groups != [] {
      assert groups[0][0] in groups[0];
      assert groups[0][0] in rows;
    }
  }

  lemma {:induction false} EverythingTaken(b: Book, lines: seq<Line>, source: string, now: Time, groups: seq<seq<Row>>, later: Book)
    requires BookInv(b) && IsLoad(b, lines, source, now, groups, later) && IsKnownSource(source) && !LacksKey(lines)
    ensures forall i :: 0 <= i < |lines| && lines[i].segment.Some? ==> lines[i].key.value in Taken(later, FamilyOf(source).value)
  {
    var family := FamilyOf(source).value;
    var taken := Taken(b, family);
    LoadKeeps(b, lines, source, now, groups, later);
    forall i | 0 <= i < |lines| && lines[i].segment.Some? ensures lines[i].key.value in Taken(later, family) {
      AcceptedOrTaken(taken, lines, source, i);
      if lines[i].key.value in taken {
        var s :| s in b.intake && s.family == family && s.key == lines[i].key.value;
        assert s in later.intake;
      } else {
        var r :| r in Accepted(taken, lines, source) && r.key == lines[i].key.value;
        assert SlotOf(r) in later.intake;
      }
    }
  }

  lemma {:induction false} AcceptedOrTaken(taken: set<Id>, lines: seq<Line>, source: string, i: nat)
    requires i < |lines| && lines[i].segment.Some? && lines[i].key.Some?
    ensures lines[i].key.value in taken || exists r :: r in Accepted(taken, lines, source) && r.key == lines[i].key.value
  {
    var front, last := lines[..|lines| - 1], lines[|lines| - 1];
    if i < |front| {
      AcceptedOrTaken(taken, front, source, i);
      if r :| r in Accepted(taken, front, source) && r.key == lines[i].key.value {
        assert r in Accepted(taken, lines, source);
      }
    } else if IsAccepted(taken, Accepted(taken, front, source), last) {
      assert RowOf(last, source) in Accepted(taken, lines, source);
    } else if last.key.value !in taken {
      var r :| r in Accepted(taken, front, source) && r.key == last.key.value;
      assert r in Accepted(taken, lines, source);
    }
  }

  lemma {:induction false} NothingAccepted(taken: set<Id>, lines: seq<Line>, source: string)
    requires forall i :: 0 <= i < |lines| && lines[i].segment.Some? ==> lines[i].key.Some? && lines[i].key.value in taken
    ensures Accepted(taken, lines, source) == []
  {
    if lines != [] {
      NothingAccepted(taken, lines[..|lines| - 1], source);
    }
  }

  datatype Step =
    | Load(lines: seq<Line>, source: string, now: Time, groups: seq<seq<Row>>)
    | AddSeed(lead: Lead)
    | Bury(tomb: Tombstone)

  /** One step leads from one book to the next. */
  ghost predicate IsStep(b: Book, step: Step, later: Book) {
    match step
    case Load(lines, source, now, groups) => IsLoad(b, lines, source, now, groups, later)
    case AddSeed(lead) => later == b.(contacts := b.contacts[b.next := Contact(lead, true, false, false)], next := b.next + 1)
    case Bury(tomb) => later == b.(tombs := b.tombs + {tomb})
  }

  const FRESH := Book(map[], map[], {}, [], 1)

  /** The books from `start` on, step by step. */
  ghost predicate IsRun(start: Book, steps: seq<Step>, books: seq<Book>) {
    && |books| == |steps| + 1 && books[0] == start
    && forall i :: 0 <= i < |steps| ==> IsStep(books[i], steps[i], books[i + 1])
  }

  lemma {:induction false} EmptyIsSound()
    ensures BookInv(FRESH)
  {
  }

  lemma {:induction false} StepKeeps(b: Book, step: Step, later: Book)
    requires BookInv(b) && IsStep(b, step, later)
    ensures BookInv(later) && Grows(b, later)
  {
    match step
    case Load(lines, source, now, groups) => LoadKeeps(b, lines, source, now, groups, later);
    case AddSeed(_) =>
      SamePhones(b, later);
      forall s | s in later.intake ensures FilingSound(later, s) {
        assert FilingSound(b, s);
      }
      forall id | id in later.contacts && !later.contacts[id].isSeed ensures HasOnePrimary(later, id) {
        assert HasOnePrimary(b, id);
        SamePrimaries(b, later, id);
      }
    case Bury(_) =>
      SamePhones(b, later);
      forall s | s in later.intake ensures FilingSound(later, s) {
        assert FilingSound(b, s);
      }
      forall id | id in later.contacts && !later.contacts[id].isSeed ensures HasOnePrimary(later, id) {
        assert HasOnePrimary(b, id);
        SamePrimaries(b, later, id);
      }
  }

  /** Over every sequence of loads from a sound book, any sources and row orders: phones stay unique, rows
      point at live contacts, every contact has one primary row, and between any two moments nothing is
      taken back. */
  lemma {:induction false} RunsKeep(start: Book, steps: seq<Step>, books: seq<Book>, i: nat, j: nat)
    requires BookInv(start) && IsRun(start, steps, books) && i <= j <= |steps|
    ensures BookInv(books[j]) && Grows(books[i], books[j])
    decreases j
  {
    if j > 0 {
      RunsKeep(start, steps, books, if i < j then i else j - 1, j - 1);
      StepKeeps(books[j - 1], steps[j - 1], books[j]);
      if i < j {
        GrowsTransitive(books[i], books[j - 1], books[j]);
      }
    }
  }

  /** The empty book in particular. */
  lemma {:induction false} BooksAreSound(steps: seq<Step>, books: seq<Book>, i: nat, j: nat)
    requires IsRun(FRESH, steps, books) && i <= j <= |steps|
    ensures BookInv(books[j]) && Grows(books[i], books[j])
  {
    EmptyIsSound();
    RunsKeep(FRESH, steps, books, i, j);
  }

  // Suppressions that outlive their contact.

  /** The hard delete of a contact: its row and its intake rows go, the tombstones stay. */
  function Forgotten(b: Book, id: Id): Book {
    b.(contacts := b.contacts - {id}, intake := map s | s in b.intake && b.intake[s].contact != id :: b.intake[s])
  }

  lemma {:induction false} ForgottenIsSound(b: Book, id: Id)
    requires BookInv(b)
    ensures BookInv(Forgotten(b, id))
  {
    var after := Forgotten(b, id);
    SamePhones(b, after);
    forall s | s in after.intake ensures FilingSound(after, s) {
      assert FilingSound(b, s);
    }
    forall c | c in after.contacts && !after.contacts[c].isSeed ensures HasOnePrimary(after, c) {
      assert HasOnePrimary(b, c);
      var s :| IsPrimaryOf(b, s, c);
      assert IsPrimaryOf(after, s, c);
      assert forall t :: IsPrimaryOf(after, t, c) ==> IsPrimaryOf(b, t, c);
    }
  }

  /** Exactly when a row that a tombstone recalls ends under a contact with that channel suppressed: the
      row's group becomes a new contact, or the contact it attaches to has it anyway. */
  lemma {:induction false} ReacquiredWhen(b: Book, group: seq<Row>, now: Time, r: Row, t: Tombstone)
    requires BookInv(b) && IsFileGroup(group) && AreNew(b, group) && r in group && t in b.tombs && Recalls(t, r)
    ensures var holders, later := Holders(b, LeadPhone(group[0])), Settle(b, group, now);
            && SlotOf(r) in later.intake && later.intake[SlotOf(r)].contact in later.contacts
            && (Flag(later.contacts[later.intake[SlotOf(r)].contact], t.channel) <==>
                holders == {} || Flag(b.contacts[MinOf(holders)], t.channel) || (t.channel == Mail && AnyDoNotMail(Rows(group))))
  {
    FiledTo(b, group, now, r);
    if Holders(b, LeadPhone(group[0])) == {} {
      assert r in Rows(group);
      assert IsRecalled(b, Rows(group), t.channel);
    }
  }

  /** A row is primary only under a contact made since `b`, and always if nothing groups it. */
  ghost predicate IsFiledNew(b: Book, later: Book, r: Row) {
    HasTable(r) && SlotOf(r) in later.intake &&
    var f := later.intake[SlotOf(r)];
    && f.row == r && (f.isPrimary ==> f.contact >= b.next)
    && (LeadPhone(r).None? ==> f.isPrimary)
  }

  lemma {:induction false} FiledNew(b: Book, group: seq<Row>, now: Time, r: Row)
    requires IsFileGroup(group) && AreNew(b, group) && r in group && (LeadPhone(r).None? ==> Rows(group) == {r})
    ensures IsFiledNew(b, Settle(b, group, now), r)
  {
    if Holders(b, LeadPhone(group[0])) != {} {
      AttachedIsFiledNew(b, group, now, r);
    } else {
      SettleCreates(b, group, now);
      CreatedIsFiledNew(b, group, Settle(b, group, now), r);
    }
  }

  lemma {:induction false} AttachedIsFiledNew(b: Book, group: seq<Row>, now: Time, r: Row)
    requires IsFileGroup(group) && AreNew(b, group) && r in group && Holders(b, LeadPhone(group[0])) != {}
    ensures IsFiledNew(b, Settle(b, group, now), r)
  {
    var id := MinOf(Holders(b, LeadPhone(group[0])));
    assert IsHolder(b, id, LeadPhone(group[0]));
    SettleAttaches(b, group, now);
  }

  lemma {:induction false} CreatedIsFiledNew(b: Book, group: seq<Row>, later: Book, r: Row)
    requires IsFileGroup(group) && r in group && (LeadPhone(r).None? ==> Rows(group) == {r})
    requires Adds(b.intake, group, b.next, Some(Winner(Rows(group)).key), later.intake)
    ensures IsFiledNew(b, later, r)
  {
  }

  lemma {:induction false} FiledNewStays(b: Book, before: Book, later: Book, r: Row)
    requires Grows(before, later) && IsFiledNew(b, before, r)
    ensures IsFiledNew(b, later, r)
  {
  }

  lemma {:induction false} EachFiledNew(b: Book, groups: seq<seq<Row>>, now: Time, i: nat, r: Row)
    requires BookInv(b) && AreFileGroups(groups) && Fits(b, groups, now) && i < |groups| && r in groups[i]
    requires LeadPhone(r).None? ==> Rows(groups[i]) == {r}
    ensures IsFiledNew(b, SettleAll(b, groups, now), r)
  {
    if i < |groups| - 1 {
      EachFiledNew(b, groups[..|groups| - 1], now, i, r);
      LastStep(b, groups, now);
      FiledNewStays(b, SettleAll(b, groups[..|groups| - 1], now), SettleAll(b, groups, now), r);
    } else {
      LastFiledNew(b, groups, now, r);
    }
  }

  lemma {:induction false} LastFiledNew(b: Book, groups: seq<seq<Row>>, now: Time, r: Row)
    requires BookInv(b) && AreFileGroups(groups) && Fits(b, groups, now) && groups != [] && r in groups[|groups| - 1]
    requires LeadPhone(r).None? ==> Rows(groups[|groups| - 1]) == {r}
    ensures IsFiledNew(b, SettleAll(b, groups, now), r)
  {
    SettleAllKeeps(b, groups[..|groups| - 1], now);
    FiledNew(SettleAll(b, groups[..|groups| - 1], now), groups[|groups| - 1], now, r);
  }

  /** What a load makes of each slot it fills. */
  ghost predicate IsNewFiling(b: Book, later: Book, s: Slot) {
    s in later.intake && HasTable(later.intake[s].row) && SlotOf(later.intake[s].row) == s
    && IsFiledNew(b, later, later.intake[s].row) && IsReacquired(b, later, later.intake[s].row)
  }

  lemma {:induction false} LoadFiles(b: Book, lines: seq<Line>, source: string, now: Time, groups: seq<seq<Row>>, later: Book)
    requires BookInv(b) && IsLoad(b, lines, source, now, groups, later)
    ensures forall s :: s in later.intake && s !in b.intake ==> IsNewFiling(b, later, s)
  {
    if IsKnownSource(source) && !LacksKey(lines) {
      var rows := Rows(Accepted(Taken(b, FamilyOf(source).value), lines, source));
      LoadParts(b, lines, source, groups);
      AcceptedAreRows(Taken(b, FamilyOf(source).value), lines, source, FamilyOf(source).value);
      ApartFits(b, groups, now);
      SlotsOfPartition(groups, rows);
      forall s | s in later.intake && s !in b.intake ensures IsNewFiling(b, later, s) {
        var r :| r in rows && SlotOf(r) == s;
        RowFiles(b, groups, rows, now, r);
      }
    }
  }

  lemma {:induction false} RowFiles(b: Book, groups: seq<seq<Row>>, rows: set<Row>, now: Time, r: Row)
    requires BookInv(b) && AreRows(rows) && IsPartition(groups, rows) && r in rows
    requires AreFileGroups(groups) && Fits(b, groups, now) && PhonesApart(groups)
    ensures IsNewFiling(b, SettleAll(b, groups, now), SlotOf(r))
  {
    var i :| 0 <= i < |groups| && r in groups[i];
    var later := SettleAll(b, groups, now);
    assert IsFiledNew(b, later, r) by {
      assert Rows(groups[i]) == GroupOf(rows, r);
      EachFiledNew(b, groups, now, i, r);
    }
    assert IsReacquired(b, later, r) by {
      EachReacquired(b, groups, now, i, r);
    }
  }

  /** The contacts made since `start` have what its tombstones recall for their primary rows. */
  ghost predicate Remembers(start: Book, later: Book, s: Slot) {
    s in later.intake && later.intake[s].contact >= start.next && later.intake[s].contact in later.contacts ==>
      var f := later.intake[s];
      && (LeadPhone(f.row).None? ==> f.isPrimary)
      && (f.isPrimary ==> forall t :: t in start.tombs && Recalls(t, f.row) ==> Flag(later.contacts[f.contact], t.channel))
  }

  ghost predicate RemembersAll(start: Book, later: Book) {
    start.next <= later.next && start.tombs <= later.tombs && forall s :: Remembers(start, later, s)
  }

  lemma {:induction false} LoadRemembers(start: Book, b: Book, lines: seq<Line>, source: string, now: Time, groups: seq<seq<Row>>, later: Book)
    requires BookInv(b) && RemembersAll(start, b) && IsLoad(b, lines, source, now, groups, later)
    ensures RemembersAll(start, later)
  {
    LoadKeeps(b, lines, source, now, groups, later);
    LoadFiles(b, lines, source, now, groups, later);
    LoadTombs(b, lines, source, now, groups, later);
    forall s | s in later.intake ensures Remembers(start, later, s) {
      if s in b.intake {
        assert Remembers(start, b, s) && FilingSound(b, s);
      } else {
        assert IsNewFiling(b, later, s);
      }
    }
  }

  lemma {:induction false} LoadTombs(b: Book, lines: seq<Line>, source: string, now: Time, groups: seq<seq<Row>>, later: Book)
    requires BookInv(b) && IsLoad(b, lines, source, now, groups, later)
    ensures later.tombs == b.tombs
  {
    if IsKnownSource(source) && !LacksKey(lines) {
      LoadParts(b, lines, source, groups);
      ApartFits(b, groups, now);
      SettleAllKeeps(b, groups, now);
    }
  }

  lemma {:induction false} RunRemembers(start: Book, steps: seq<Step>, books: seq<Book>, j: nat)
    requires BookInv(start) && IsRun(start, steps, books) && j <= |steps|
    ensures RemembersAll(start, books[j])
    decreases j
  {
    if j == 0 {
      forall s ensures Remembers(start, start, s) {
        assert FilingSound(start, s);
      }
    } else {
      RunRemembers(start, steps, books, j - 1);
      RunsKeep(start, steps, books, 0, j - 1);
      var b, later := books[j - 1], books[j];
      match steps[j - 1]
      case Load(lines, source, now, groups) => LoadRemembers(start, b, lines, source, now, groups, later);
      case AddSeed(_) =>
        forall s ensures Remembers(start, later, s) {
          assert Remembers(start, b, s) && FilingSound(b, s);
        }
      case Bury(_) =>
        forall s ensures Remembers(start, later, s) {
          assert Remembers(start, b, s);
        }
    }
  }

  /** A suppression outlives its contact. Whatever was deleted before, and over all later loads: a contact
      made since that has a row of the tombstone's phone, or whose primary row it recalls, has the channel
      suppressed. */
  lemma {:induction false} SuppressionSurvives(start: Book, steps: seq<Step>, books: seq<Book>, t: Tombstone, s: Slot)
    requires BookInv(start) && IsRun(start, steps, books) && t in start.tombs
    requires s in books[|steps|].intake && books[|steps|].intake[s].contact >= start.next
    requires var f := books[|steps|].intake[s];
             (t.phone.Some? && f.row.phone == t.phone) || (f.isPrimary && Recalls(t, f.row))
    ensures var later := books[|steps|];
            && later.intake[s].contact in later.contacts
            && Flag(later.contacts[later.intake[s].contact], t.channel)
  {
    var later := books[|steps|];
    var f := later.intake[s];
    RunsKeep(start, steps, books, 0, |steps|);
    RunRemembers(start, steps, books, |steps|);
    assert FilingSound(later, s) && Remembers(start, later, s);
    if !f.isPrimary {
      assert HasOnePrimary(later, f.contact);
      var p :| IsPrimaryOf(later, p, f.contact);
      assert FilingSound(later, p) && Remembers(start, later, p);
      assert LeadPhone(later.intake[p].row) == LeadPhone(f.row) == f.row.phone;
    }
  }

  // What is filed after some moment.

  /** Ids are minted upwards. */
  ghost predicate OnlyNewIds(start: Book, later: Book) {
    start.next <= later.next && forall id :: id in later.contacts && id < start.next ==> id in start.contacts
  }

  lemma {:induction false} SettleAllMints(b: Book, groups: seq<seq<Row>>, now: Time)
    requires BookInv(b) && AreFileGroups(groups) && Fits(b, groups, now)
    ensures OnlyNewIds(b, SettleAll(b, groups, now))
  {
    if groups != [] {
      var front := groups[..|groups| - 1];
      SettleAllMints(b, front, now);
      SettleAllKeeps(b, front, now);
      SettleMints(SettleAll(b, front, now), groups[|groups| - 1], now);
    }
  }

  lemma {:induction false} SettleMints(b: Book, group: seq<Row>, now: Time)
    requires IsFileGroup(group)
    ensures OnlyNewIds(b, Settle(b, group, now))
  {
  }

  /** A slot filled since is primary only under a contact made since, and always if nothing groups it. */
  ghost predicate FiledSince(start: Book, later: Book) {
    forall s :: s in later.intake && s !in start.intake ==>
      && (later.intake[s].isPrimary ==> later.intake[s].contact >= start.next)
      && (LeadPhone(later.intake[s].row).None? ==> later.intake[s].isPrimary)
  }

  lemma {:induction false} LoadFilesSince(start: Book, b: Book, lines: seq<Line>, source: string, now: Time, groups: seq<seq<Row>>, later: Book)
    requires BookInv(b) && OnlyNewIds(start, b) && FiledSince(start, b) && IsLoad(b, lines, source, now, groups, later)
    ensures OnlyNewIds(start, later) && FiledSince(start, later)
  {
    LoadKeeps(b, lines, source, now, groups, later);
    LoadFiles(b, lines, source, now, groups, later);
    if IsKnownSource(source) && !LacksKey(lines) {
      LoadParts(b, lines, source, groups);
      ApartFits(b, groups, now);
      SettleAllMints(b, groups, now);
    }
    forall s | s in later.intake && s !in start.intake
      ensures later.intake[s].isPrimary ==> later.intake[s].contact >= start.next
      ensures LeadPhone(later.intake[s].row).None? ==> later.intake[s].isPrimary
    {
      if s !in b.intake {
        assert IsNewFiling(b, later, s);
      }
    }
  }

  lemma {:induction false} RunFilesSince(start: Book, steps: seq<Step>, books: seq<Book>, j: nat)
    requires BookInv(start) && IsRun(start, steps, books) && j <= |steps|
    ensures OnlyNewIds(start, books[j]) && FiledSince(start, books[j])
    decreases j
  {
    if j > 0 {
      RunFilesSince(start, steps, books, j - 1);
      RunsKeep(start, steps, books, 0, j - 1);
      match steps[j - 1]
      case Load(lines, source, now, groups) => LoadFilesSince(start, books[j - 1], lines, source, now, groups, books[j]);
      case AddSeed(_) =>
      case Bury(_) =>
    }
  }

  /** A row of a phone that nobody held goes to a contact made since. */
  lemma {:induction false} FreedPhoneIsNew(start: Book, steps: seq<Step>, books: seq<Book>, phone: Option<string>, s: Slot)
    requires BookInv(start) && IsRun(start, steps, books) && phone.Some? && Holders(start, phone) == {}
    requires s in books[|steps|].intake && s !in start.intake && books[|steps|].intake[s].row.phone == phone
    ensures books[|steps|].intake[s].contact >= start.next
  {
    var later := books[|steps|];
    var f := later.intake[s];
    RunsKeep(start, steps, books, 0, |steps|);
    RunFilesSince(start, steps, books, |steps|);
    assert FilingSound(later, s);
    assert IsHolder(start, f.contact, phone) ==> f.contact in Holders(start, phone);
  }

  /** Deleting the holder of a phone frees it. */
  lemma {:induction false} ForgottenPhoneIsFree(b: Book, id: Id)
    requires BookInv(b) && id in b.contacts && !b.contacts[id].isSeed
    ensures Holders(Forgotten(b, id), b.contacts[id].lead.phone) == {}
  {
    var phone := b.contacts[id].lead.phone;
    forall other ensures !IsHolder(Forgotten(b, id), other, phone) {
      if IsHolder(Forgotten(b, id), other, phone) {
        assert IsHolder(b, other, phone) && IsHolder(b, id, phone);
      }
    }
  }

  // A list row alone is not always recalled.

  const CSLB_SOURCE := "cslb-ca"
  const OTHERS_PHONE: Option<string> := Some("+18055550111")

  function LineOf(key: Id): Line {
    Line(Some(key), OTHERS_PHONE, None, None, None, Address(None, None, None, None), None, Some("hvac"), false)
  }

  function Single(key: Id): Row {
    RowOf(LineOf(key), CSLB_SOURCE)
  }

  /** A one-line file of the source is one group. */
  lemma {:induction false} OneLineLoads(b: Book, key: Id, now: Time)
    requires Slot(Cslb, key) !in b.intake
    ensures AreFileGroups([[Single(key)]]) && IsFileGroup([Single(key)])
    ensures SettleAll(b, [[Single(key)]], now) == Settle(b, [Single(key)], now)
    ensures IsLoad(b, [LineOf(key)], CSLB_SOURCE, now, [[Single(key)]], Settle(b, [Single(key)], now))
  {
    SingleGroups(key);
    SingleAccepted(Taken(b, Cslb), key);
    OneGroupLoads(b, [LineOf(key)], CSLB_SOURCE, now, [Single(key)]);
  }

  /** A file whose rows are one group. */
  lemma {:induction false} OneGroupLoads(b: Book, lines: seq<Line>, source: string, now: Time, group: seq<Row>)
    requires IsKnownSource(source) && !LacksKey(lines) && IsFileGroup(group) && IsPartition([group], Rows(group))
    requires Accepted(Taken(b, FamilyOf(source).value), lines, source) == group
    ensures AreFileGroups([group]) && SettleAll(b, [group], now) == Settle(b, group, now)
    ensures IsLoad(b, lines, source, now, [group], Settle(b, group, now))
  {
    assert [group][..0] == [];
  }

  lemma {:induction false} SingleGroups(key: Id)
    ensures FamilyOf(CSLB_SOURCE) == Some(Cslb) && HasTable(Single(key)) && SlotOf(Single(key)) == Slot(Cslb, key)
    ensures IsFileGroup([Single(key)]) && Rows([Single(key)]) == {Single(key)}
    ensures IsPartition([[Single(key)]], {Single(key)})
  {
    var r := Single(key);
    assert CSLB_SOURCE[..4] == "cslb" && [[r]][0] == [r];
    assert Rows([r]) == {r} == GroupOf({r}, r);
  }

  lemma {:induction false} SingleAccepted(taken: set<Id>, key: Id)
    requires key !in taken
    ensures Accepted(taken, [LineOf(key)], CSLB_SOURCE) == [Single(key)]
  {
    assert [LineOf(key)][..0] == [];
  }

  /** A suppressed list row comes back under another phone, whose contact a file before it has made: it
      attaches, and the channel stays open. */
  lemma {:induction false} AttachedRowIsNotRecalled(now: Time)
    ensures var start := FRESH.(tombs := {Tombstone(None, Some(0), Voice)});
            && IsFileGroup([Single(1)]) && IsFileGroup([Single(0)])
            && var first := Settle(start, [Single(1)], now);
               var later := Settle(first, [Single(0)], now);
            && IsRun(start, [Load([LineOf(1)], CSLB_SOURCE, now, [[Single(1)]]), Load([LineOf(0)], CSLB_SOURCE, now, [[Single(0)]])],
                     [start, first, later])
            && Slot(Cslb, 0) in later.intake && later.intake[Slot(Cslb, 0)].contact in later.contacts
            && later.intake[Slot(Cslb, 0)].contact >= start.next
            && !Flag(later.contacts[later.intake[Slot(Cslb, 0)].contact], Voice)
  {
    var start := FRESH.(tombs := {Tombstone(None, Some(0), Voice)});
    OneLineLoads(start, 1, now);
    var first := Settle(start, [Single(1)], now);
    SingleIsNew(start, now);
    OneLineLoads(first, 0, now);
    SingleAttaches(first, now);
    TwoLoads(start, first, Settle(first, [Single(0)], now), now);
  }

  lemma {:induction false} TwoLoads(start: Book, first: Book, later: Book, now: Time)
    requires IsLoad(start, [LineOf(1)], CSLB_SOURCE, now, [[Single(1)]], first)
    requires IsLoad(first, [LineOf(0)], CSLB_SOURCE, now, [[Single(0)]], later)
    ensures IsRun(start, [Load([LineOf(1)], CSLB_SOURCE, now, [[Single(1)]]), Load([LineOf(0)], CSLB_SOURCE, now, [[Single(0)]])],
                  [start, first, later])
  {
  }

  lemma {:induction false} SingleAttaches(first: Book, now: Time)
    requires Slot(Cslb, 0) !in first.intake && first.contacts.Keys == {1} && !first.contacts[1].doNotCall
    requires Holders(first, OTHERS_PHONE) == {1} && IsFileGroup([Single(0)])
    ensures var later := Settle(first, [Single(0)], now);
            && Slot(Cslb, 0) in later.intake && later.intake[Slot(Cslb, 0)].contact == 1
            && 1 in later.contacts && !later.contacts[1].doNotCall
  {
    assert CSLB_SOURCE[..4] == "cslb" && HasTable(Single(0)) && SlotOf(Single(0)) == Slot(Cslb, 0);
    FiledTo(first, [Single(0)], now, Single(0));
  }

  lemma {:induction false} SingleIsNew(start: Book, now: Time)
    requires start == FRESH.(tombs := {Tombstone(None, Some(0), Voice)}) && IsFileGroup([Single(1)])
    ensures var first := Settle(start, [Single(1)], now);
            && Slot(Cslb, 0) !in first.intake && first.contacts.Keys == {1}
            && !first.contacts[1].isSeed && first.contacts[1].lead.phone == OTHERS_PHONE && !first.contacts[1].doNotCall
            && Holders(first, OTHERS_PHONE) == {1} && first.next == 2
  {
    var r := Single(1);
    assert CSLB_SOURCE[..4] == "cslb" && HasTable(r) && SlotOf(r) == Slot(Cslb, 1);
    assert Rows([r]) == {r};
    assert Holders(start, OTHERS_PHONE) == {};
    FiledAt(start.(contacts := start.contacts[start.next := NewContact(start, {r})], next := start.next + 1), [r], 1, Some(1), now);
  }
}
