/** A suppression is for good: within the tables no verb takes it back, and after a hard delete the next
    loads bring it back with the contact (service/contacts.py, suppress and load_list). */
module Recall {
  import opened Types
  import opened Custody
  import opened CustodyProofs
  import opened Scrub
  import opened Compliance
  import Identity
  import Intake
  import IntakeRuns

  // In the tables.

  /** No flag of a person's own making is taken back, and a do-not-call contact at home stays there. */
  predicate Stands(c: Contact, later: Contact) {
    && (c.doNotMail ==> later.doNotMail) && (c.doNotText ==> later.doNotText) && (c.doNotCall ==> later.doNotCall)
    && (c.doNotCall && c.owner == HOUSE ==> later.owner == HOUSE)
  }

  predicate AllStand(db: Db, later: Db) {
    forall id :: id in db.contacts ==> id in later.contacts && Stands(db.contacts[id], later.contacts[id])
  }

  lemma {:induction false} MovesStand(db: Db, ids: seq<Id>, owner: Id, kind: EventType, reason: string, batch: Option<Id>, now: Time)
    requires forall id :: id in ids ==> id in db.contacts && (owner == HOUSE || !db.contacts[id].doNotCall)
    ensures AllStand(db, SetOwners(db, ids, owner, kind, reason, batch, now))
  {
    SetOwnersMoves(db, ids, owner, kind, reason, batch, now);
  }

  lemma {:induction false} AssignStands(db: Db, now: Time, call: AssignCall, matches: set<Id>, batch: Id)
    ensures AllStand(db, Assign(db, now, call, matches, batch))
  {
    if !(Refusal(db, call).Some? || IsRetry(db, call)) {
      var ids := Chosen(db, now, call, matches);
      ChosenMayBeCalled(db, now, call, matches);
      SetOwnersMoves(WithBatch(db, now, call, matches, batch), ids, call.partner, ContactAssigned, "assigned", Some(batch), now);
    }
  }

  lemma {:induction false} ChosenMayBeCalled(db: Db, now: Time, call: AssignCall, matches: set<Id>)
    requires call.partner in db.partners
    ensures forall id :: id in Chosen(db, now, call, matches) ==> id in db.contacts && !db.contacts[id].doNotCall
  {
    forall id | id in Chosen(db, now, call, matches) ensures id in db.contacts && !db.contacts[id].doNotCall {
      PassesMayBeCalled(db, now, id);
    }
  }

  lemma {:induction false} PassesMayBeCalled(db: Db, now: Time, id: Id)
    requires Passes(db, now, id)
    ensures id in db.contacts && !db.contacts[id].doNotCall
  {
  }

  lemma {:induction false} ReturnStands(w: World, step: Step)
    requires IsReturn(step)
    ensures AllStand(w.db, Returned(w, step))
  {
    match step
    case ReclaimStep(partner, reason) =>
      MovesStand(w.db, Ascending(Holdings(w.db, partner)), HOUSE, ContactReclaimed, reason, None, w.now);
    case ExpiryStep =>
      MovesStand(w.db, Ascending(DueToExpire(w.db, w.now)), HOUSE, ContactAssignmentExpired, "expired", None, w.now);
    case WonStep => MovesStand(w.db, Ascending(WonHoldings(w.db)), HOUSE, ContactReclaimed, "won", None, w.now);
  }

  lemma {:induction false} ReturnedStands(w: World, step: Step)
    requires IsReturn(step)
    ensures AllStand(w.db, Next(w, step).db)
  {
    NextReturns(w, step);
    ReturnStands(w, step);
  }

  lemma {:induction false} SuppressAsStands(db: Db, now: Time, s: Suppression, owner: Id)
    requires s.id in db.contacts
    ensures AllStand(db, SuppressAs(db, now, s, owner))
  {
    assert AllStand(db, Flag(db, now, s));
  }

  lemma {:induction false} StepStands(w: World, step: Step)
    ensures AllStand(w.db, Next(w, step).db)
  {
    match step
    case AssignStep(call, matches, batch) => AssignStands(w.db, w.now, call, matches, batch);
    case ReclaimStep(_, _) => ReturnedStands(w, step);
    case ExpiryStep => ReturnedStands(w, step);
    case WonStep => ReturnedStands(w, step);
    case SuppressWrite(token) =>
      if SuppressReady(w, token) {
        SuppressAsStands(w.db, w.now, w.pending[token].call, w.pending[token].owner);
      }
    case ScrubOne(run) =>
      if RowReady(w, run) {
        RowStands(w.db, w.now, NextRow(w, run), IsHit(w, run), Some(CodeOf(w, run).snapshot));
      }
    case _ => OthersStand(w, step);
  }

  lemma {:induction false} RowStands(db: Db, now: Time, row: DueRow, hit: bool, snapshot: Option<Id>)
    requires row.id in db.contacts
    ensures AllStand(db, ApplyRow(db, now, row, hit, LEDGER_VERSION, snapshot))
  {
  }

  lemma {:induction false} OthersStand(w: World, step: Step)
    requires !step.AssignStep? && !step.ReclaimStep? && !step.ExpiryStep? && !step.WonStep?
    requires !step.SuppressWrite? && !step.ScrubOne?
    ensures AllStand(w.db, Next(w, step).db)
  {
    if IsScrubbing(step) {
      assert Next(w, step) == NextScrub(w, step);
      ScrubStands(w, step);
    } else if IsVerb(step) {
      assert Next(w, step) == NextVerb(w, step);
    } else {
      assert Next(w, step) == NextOutside(w, step);
    }
  }

  lemma {:induction false} ScrubStands(w: World, step: Step)
    requires IsScrubbing(step) && !step.ScrubOne?
    ensures AllStand(w.db, NextScrub(w, step).db)
  {
  }

  /** From any moment on, whatever is interleaved with what: a suppression stands, and a do-not-call
      contact that is home is never assigned again. */
  lemma {:induction false} SuppressionStands(w: World, steps: seq<Step>, id: Id)
    requires id in w.db.contacts
    ensures id in Run(w, steps).db.contacts && Stands(w.db.contacts[id], Run(w, steps).db.contacts[id])
  {
    if steps != [] {
      SuppressionStands(w, steps[..|steps| - 1], id);
      StepStands(Run(w, steps[..|steps| - 1]), steps[|steps| - 1]);
    }
  }

  // Across a hard delete.

  /** The row that a load inserts for a contact, in the columns custody reads. */
  function Created(c: Intake.Contact): Contact {
    Contact(c.lead.phone, c.isSeed, HOUSE, None, Prospect, false, c.lead.doNotMail, c.doNotText, c.doNotCall, false, None, None)
  }

  function Blocked(scope: Scope): set<Channel> {
    match scope
    case Only(channel) => {channel}
    case All => {Mail, Sms, Voice}
    case UnknownChannel(_) => {}
  }

  function HasFlag(c: Contact, channel: Channel): bool {
    match channel
    case Mail => c.doNotMail
    case Sms => c.doNotText
    case Voice => c.doNotCall
  }

  /** The contact as intake knows it: a lead, with its phone, and its primary row under the key that
      suppress looks up. */
  ghost predicate IsOneContact(db: Db, s: Suppression, b: Intake.Book) {
    && s.id in db.contacts && s.id in b.contacts && !b.contacts[s.id].isSeed
    && b.contacts[s.id].lead.phone == db.contacts[s.id].phone
    && s.listKey.Some? && exists at :: IntakeRuns.IsPrimaryOf(b, at, s.id) && at.key == s.listKey.value
  }

  /** The tombstones that a suppression leaves. */
  function LeftBy(db: Db, now: Time, s: Suppression): (stones: seq<Tombstone>)
    requires SuppressRefusal(db, s).None?
    ensures stones == Stones(db.contacts[s.id].phone, s.listKey, s.scope)
  {
    assert Suppress(db, now, s).tombstones == db.tombstones + Stones(db.contacts[s.id].phone, s.listKey, s.scope);
    Suppress(db, now, s).tombstones[|db.tombstones|..]
  }

  /** Intake's tables once the suppression has left its tombstones and the contact is deleted. */
  function Deleted(b: Intake.Book, stones: seq<Tombstone>, id: Id): Intake.Book {
    IntakeRuns.Forgotten(Buried(b, stones), id)
  }

  function Buried(b: Intake.Book, stones: seq<Tombstone>): Intake.Book {
    b.(tombs := b.tombs + set t | t in stones)
  }

  lemma {:induction false} BuriedIsSound(b: Intake.Book, stones: seq<Tombstone>)
    requires IntakeRuns.BookInv(b)
    ensures IntakeRuns.BookInv(Buried(b, stones))
  {
    var after := Buried(b, stones);
    IntakeRuns.SamePhones(b, after);
    forall at | at in after.intake ensures IntakeRuns.FilingSound(after, at) {
      assert IntakeRuns.FilingSound(b, at);
    }
    forall id | id in after.contacts && !after.contacts[id].isSeed ensures IntakeRuns.HasOnePrimary(after, id) {
      assert IntakeRuns.HasOnePrimary(b, id);
      IntakeRuns.SamePrimaries(b, after, id);
    }
  }

  lemma {:induction false} AllBuried(phone: Option<string>, listKey: Option<Id>, scope: Scope, channel: Channel)
    requires channel in Blocked(scope)
    ensures Tombstone(phone, listKey, channel) in Stones(phone, listKey, scope)
  {
    var stones := Stones(phone, listKey, scope);
    if scope == All {
      assert stones[0].channel == Mail && stones[1].channel == Sms && stones[2].channel == Voice;
    } else {
      assert stones[0].channel == channel;
    }
  }

  /** The suppressed contact's phone on one of the contact's rows, or its list key on the primary one. */
  predicate ComesBack(db: Db, s: Suppression, f: Intake.Filing)
    requires s.id in db.contacts
  {
    || (db.contacts[s.id].phone.Some? && f.row.phone == db.contacts[s.id].phone)
    || (f.isPrimary && s.listKey == Some(f.row.key))
  }

  /** Suppressed, deleted, loaded again: over any later loads, whatever is filed under the phone, or is the
      primary row itself come back, is filed under a new contact that carries every channel the suppression
      blocked. As a row of the custody tables that is a new contact which, when voice was blocked, passes no
      gate then or after any steps of the custody machine, and stays with the house. */
  lemma {:induction false} ReturnsSuppressed(db: Db, now: Time, s: Suppression, b: Intake.Book, steps: seq<IntakeRuns.Step>, books: seq<Intake.Book>,
                                             at: Slot)
    requires SuppressRefusal(db, s).None? && IntakeRuns.BookInv(b) && IsOneContact(db, s, b)
    requires IntakeRuns.IsRun(Deleted(b, LeftBy(db, now, s), s.id), steps, books)
    requires at in books[|steps|].intake && at !in books[0].intake && ComesBack(db, s, books[|steps|].intake[at])
    ensures var id := books[|steps|].intake[at].contact;
            && id in books[|steps|].contacts && id >= b.next
            && var c := Created(books[|steps|].contacts[id]);
            && IsNewContact(c) && (forall channel :: channel in Blocked(s.scope) ==> HasFlag(c, channel))
            && (BlocksVoice(s.scope) ==> forall w, later :: NeverLeaves(w, later, id, c))
  {
    var f := books[|steps|].intake[at];
    ReturnsFlagged(db, s, b, steps, books, at);
    var c := Created(books[|steps|].contacts[f.contact]);
    if BlocksVoice(s.scope) {
      assert HasFlag(c, Voice);
      forall w, later ensures NeverLeaves(w, later, f.contact, c) {
        FlaggedNeverLeaves(w, later, f.contact, c);
      }
    }
  }

  lemma {:induction false} ReturnsFlagged(db: Db, s: Suppression, b: Intake.Book, steps: seq<IntakeRuns.Step>, books: seq<Intake.Book>, at: Slot)
    requires IntakeRuns.BookInv(b) && IsOneContact(db, s, b)
    requires IntakeRuns.IsRun(Deleted(b, Stones(db.contacts[s.id].phone, s.listKey, s.scope), s.id), steps, books)
    requires at in books[|steps|].intake && at !in books[0].intake && ComesBack(db, s, books[|steps|].intake[at])
    ensures var id := books[|steps|].intake[at].contact;
            && id in books[|steps|].contacts && id >= b.next && !books[|steps|].contacts[id].isSeed
            && forall channel :: channel in Blocked(s.scope) ==> HasFlag(Created(books[|steps|].contacts[id]), channel)
  {
    var start, last := books[0], books[|steps|];
    DeletedIsSound(db, s, b);
    ComesBackNew(db, s, b, steps, books, at);
    IntakeRuns.RunsKeep(start, steps, books, 0, |steps|);
    assert IntakeRuns.FilingSound(last, at);
    forall channel | channel in Blocked(s.scope) ensures HasFlag(Created(last.contacts[last.intake[at].contact]), channel) {
      AllBuried(db.contacts[s.id].phone, s.listKey, s.scope, channel);
      IntakeRuns.SuppressionSurvives(start, steps, books, Tombstone(db.contacts[s.id].phone, s.listKey, channel), at);
    }
  }

  lemma {:induction false} FlaggedNeverLeaves(w: World, steps: seq<Step>, id: Id, c: Contact)
    requires c.doNotCall && c.owner == HOUSE
    ensures NeverLeaves(w, steps, id, c)
  {
    if id in w.db.contacts && w.db.contacts[id] == c {
      SuppressionStands(w, steps, id);
    }
  }

  lemma {:induction false} DeletedIsSound(db: Db, s: Suppression, b: Intake.Book)
    requires IntakeRuns.BookInv(b) && IsOneContact(db, s, b)
    ensures var start := Deleted(b, Stones(db.contacts[s.id].phone, s.listKey, s.scope), s.id);
            && IntakeRuns.BookInv(start) && start.next == b.next
            && Intake.Holders(start, db.contacts[s.id].phone) == {}
            && forall stone :: stone in Stones(db.contacts[s.id].phone, s.listKey, s.scope) ==> stone in start.tombs
  {
    var buried := Buried(b, Stones(db.contacts[s.id].phone, s.listKey, s.scope));
    BuriedIsSound(b, Stones(db.contacts[s.id].phone, s.listKey, s.scope));
    IntakeRuns.ForgottenIsSound(buried, s.id);
    IntakeRuns.ForgottenPhoneIsFree(buried, s.id);
  }

  lemma {:induction false} ComesBackNew(db: Db, s: Suppression, b: Intake.Book, steps: seq<IntakeRuns.Step>, books: seq<Intake.Book>, at: Slot)
    requires IntakeRuns.BookInv(b) && IsOneContact(db, s, b)
    requires IntakeRuns.IsRun(Deleted(b, Stones(db.contacts[s.id].phone, s.listKey, s.scope), s.id), steps, books)
    requires at in books[|steps|].intake && at !in books[0].intake && ComesBack(db, s, books[|steps|].intake[at])
    ensures books[|steps|].intake[at].contact >= b.next
  {
    var phone := db.contacts[s.id].phone;
    DeletedIsSound(db, s, b);
    if phone.Some? && books[|steps|].intake[at].row.phone == phone {
      IntakeRuns.FreedPhoneIsNew(books[0], steps, books, phone, at);
    } else {
      IntakeRuns.RunFilesSince(books[0], steps, books, |steps|);
    }
  }

  /** From a world with this contact on, the contact is refused by every gate and stays with the house. */
  ghost predicate NeverLeaves(w: World, steps: seq<Step>, id: Id, c: Contact) {
    id in w.db.contacts && w.db.contacts[id] == c ==>
      var later := Run(w, steps);
      && id in later.db.contacts && later.db.contacts[id].owner == HOUSE
      && Gate(later.db, later.now, later.db.contacts[id]).Some?
  }
}
