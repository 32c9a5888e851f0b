/** The custody verbs read off the tables alone: which rows change, to what, and what is logged, over the
    columns that the queries in service/assignment.py, service/contacts.py and jobs/dnc_refresh.py name. */
module CustodyColumns {
  import opened Types
  import opened Custody
  import opened CustodyProofs

  // Moves and their log.

  /** One event for each lead, in order of id, and nothing else. */
  ghost predicate LogsMoves(more: seq<Event>, leads: set<Id>, owner: Id, kind: EventType, reason: string, batch: Option<Id>, now: Time) {
    exists ids :: AreInOrder(ids, leads) && LogsEach(more, ids, owner, kind, reason, batch, now)
  }

  ghost predicate AreInOrder(ids: seq<Id>, leads: set<Id>) {
    (forall i, j :: 0 <= i < j < |ids| ==> ids[i] < ids[j]) && forall id :: id in ids <==> id in leads
  }

  ghost predicate LogsEach(more: seq<Event>, ids: seq<Id>, owner: Id, kind: EventType, reason: string, batch: Option<Id>, now: Time) {
    && |more| == |ids|
    && forall i :: 0 <= i < |ids| ==>
         more[i] == Event(Some(ids[i]), None, System, kind, now, None,
                          Payload(reason := Some(reason), newOwner := Some(owner), batch := batch))
  }

  /** Exactly these leads change hands, one event each; no other row and no other table changes. */
  ghost predicate Moved(db: Db, after: Db, leads: set<Id>, owner: Id, kind: EventType, reason: string, batch: Option<Id>, now: Time) {
    && after == db.(contacts := after.contacts, events := after.events)
    && after.contacts.Keys == db.contacts.Keys
    && (forall id :: id in db.contacts ==>
          after.contacts[id] == if id in leads then db.contacts[id].(owner := owner, batch := batch) else db.contacts[id])
    && |db.events| <= |after.events| && after.events[..|db.events|] == db.events
    && LogsMoves(after.events[|db.events|..], leads, owner, kind, reason, batch, now)
  }

  ghost predicate SentHome(db: Db, after: Db, leads: set<Id>, kind: EventType, reason: string, now: Time) {
    Moved(db, after, leads, 1, kind, reason, None, now)
  }

  lemma {:induction false} MovesAreMoved(db: Db, leads: set<Id>, ids: seq<Id>, owner: Id, kind: EventType, reason: string, batch: Option<Id>, now: Time)
    requires leads <= db.contacts.Keys && AreInOrder(ids, leads)
    ensures Moved(db, SetOwners(db, ids, owner, kind, reason, batch, now), leads, owner, kind, reason, batch, now)
  {
    SetOwnersMoves(db, ids, owner, kind, reason, batch, now);
    SetOwnersLogs(db, ids, owner, kind, reason, batch, now);
    var more := OwnershipEvents(ids, owner, kind, reason, batch, now);
    assert LogsEach(more, ids, owner, kind, reason, batch, now);
    AfterPrefix(db.events, more);
  }

  lemma {:induction false} AfterPrefix<T>(a: seq<T>, b: seq<T>)
    ensures (a + b)[..|a|] == a && (a + b)[|a|..] == b
  {
  }

  // Returns to the house.

  /** The leads whose batch is on file with its term over. */
  ghost function Overdue(db: Db, now: Time): set<Id> {
    set id | id in db.contacts && db.contacts[id].batch.Some? && db.contacts[id].batch.value in db.batches
             && db.batches[db.contacts[id].batch.value].expiresAt < now
  }

  /** The nightly expiry sends home exactly the overdue leads: a lead in an unexpired batch stays. */
  lemma {:induction false} ExpirySendsHome(db: Db, now: Time)
    ensures SentHome(db, Expire(db, now), Overdue(db, now), ContactAssignmentExpired, "expired", now)
  {
    assert DueToExpire(db, now) == Overdue(db, now);
    MovesAreMoved(db, Overdue(db, now), Ascending(DueToExpire(db, now)), HOUSE, ContactAssignmentExpired, "expired", None, now);
  }

  /** The won leads that still point at a batch. */
  ghost function WonAndHeld(db: Db): set<Id> {
    set id | id in db.contacts && db.contacts[id].stage == Won && db.contacts[id].batch.Some?
  }

  lemma {:induction false} WonStepSendsHome(db: Db, now: Time)
    ensures SentHome(db, TerminateWon(db, now), WonAndHeld(db), ContactReclaimed, "won", now)
  {
    assert WonHoldings(db) == WonAndHeld(db);
    MovesAreMoved(db, WonAndHeld(db), Ascending(WonHoldings(db)), HOUSE, ContactReclaimed, "won", None, now);
  }

  /** The code points that strip takes off. */
  const WHITE: seq<int> := [9, 10, 11, 12, 13, 28, 29, 30, 31, 32, 133, 160, 5760, 8192, 8193, 8194, 8195, 8196, 8197, 8198,
                            8199, 8200, 8201, 8202, 8232, 8233, 8239, 8287, 12288]

  /** A text with a character that is not white space. */
  ghost predicate HasWord(text: string) {
    exists c :: c in text && c as int !in WHITE
  }

  lemma {:induction false} WhiteWhen(c: char)
    ensures IsSpace(c) <==> c as int in WHITE
  {
    var code := c as int;
    if IsSpace(c) {
      var i := if code <= 13 then code - 9 else if code <= 32 then code - 23 else if code == 133 then 10 else if code == 160 then 11
               else if code == 5760 then 12 else if code <= 8202 then code - 8179 else if code == 8232 then 24 else if code == 8233 then 25
               else if code == 8239 then 26 else if code == 8287 then 27 else 28;
      assert WHITE[i] == code;
    }
  }

  lemma {:induction false} BlankWhen(text: string)
    ensures IsBlank(text) <==> !HasWord(text)
  {
    if !IsBlank(text) {
      var i :| 0 <= i < |text| && !IsSpace(text[i]);
      WhiteWhen(text[i]);
      assert text[i] in text;
    }
    if c :| c in text && c as int !in WHITE {
      var i :| 0 <= i < |text| && text[i] == c;
      WhiteWhen(text[i]);
    }
  }

  ghost function OwnedBy(db: Db, partner: Id): set<Id> {
    set id | id in db.contacts && db.contacts[id].owner == partner
  }

  /** A reclaim with a reason sends home exactly what the partner owns; without one it changes nothing. */
  lemma {:induction false} ReclaimSendsHome(db: Db, now: Time, partner: Id, reason: string)
    ensures HasWord(reason) ==>
              SentHome(db, Reclaim(db, now, partner, reason), OwnedBy(db, partner), ContactReclaimed, reason, now)
    ensures !HasWord(reason) ==> Reclaim(db, now, partner, reason) == db
  {
    BlankWhen(reason);
    if HasWord(reason) {
      assert Holdings(db, partner) == OwnedBy(db, partner);
      MovesAreMoved(db, OwnedBy(db, partner), Ascending(Holdings(db, partner)), HOUSE, ContactReclaimed, reason, None, now);
    }
  }

  // Suppression.

  ghost predicate Covers(scope: Scope, channel: Channel) {
    scope == All || scope == Only(channel)
  }

  /** The four refusals, each where no earlier one applies. */
  lemma {:induction false} SuppressionRefusedWhen(db: Db, s: Suppression)
    ensures var badChannel := s.scope.UnknownChannel?;
            var badReason := !HasWord(s.reason) || (s.scope.All? && s.reason == "do_not_mail");
            && (SuppressRefusal(db, s) == Some(BadChannel) <==> badChannel)
            && (SuppressRefusal(db, s) == Some(BadReason) <==> !badChannel && badReason)
            && (SuppressRefusal(db, s) == Some(NoContact) <==> !badChannel && !badReason && s.id !in db.contacts)
            && (SuppressRefusal(db, s).None? <==> !badChannel && !badReason && s.id in db.contacts)
  {
    BlankWhen(s.reason);
  }

  /** What the suppressed contact becomes: each column of a covered channel set, a held lead that may no
      longer be called home, and every other column as it was. */
  ghost predicate IsSuppressedRow(c: Contact, later: Contact, scope: Scope) {
    && later.doNotMail == (c.doNotMail || Covers(scope, Mail))
    && later.doNotText == (c.doNotText || Covers(scope, Sms))
    && later.doNotCall == (c.doNotCall || Covers(scope, Voice))
    && later.owner == (if Covers(scope, Voice) && c.owner != 1 then 1 else c.owner)
    && later.batch == (if Covers(scope, Voice) && c.owner != 1 then None else c.batch)
    && later.phone == c.phone && later.isSeed == c.isSeed && later.stage == c.stage
    && later.addressUndeliverable == c.addressUndeliverable && later.dncRegistry == c.dncRegistry
    && later.dncCheckedAt == c.dncCheckedAt && later.dncSnapshot == c.dncSnapshot
  }

  /** The one event of a suppression, and the return it may end with. */
  ghost function SuppressionLog(c: Contact, s: Suppression, now: Time): seq<Event> {
    [Event(Some(s.id), None, Human, if s.scope.All? then ContactOptOut else ContactSuppressed, now, None,
           Payload(reason := Some(s.reason)))]
    + if Covers(s.scope, Voice) && c.owner != 1
      then [Event(Some(s.id), None, System, ContactReclaimed, now, None,
                  Payload(reason := Some(if s.scope.All? then "opt_out" else "do_not_call"), newOwner := Some(1)))]
      else []
  }

  /** One stone for each covered channel, by the contact's phone and list key. */
  ghost predicate AreStones(stones: seq<Tombstone>, phone: Option<string>, listKey: Option<Id>, scope: Scope) {
    && Distinct(stones)
    && forall stone :: stone in stones <==> Covers(scope, stone.channel) && stone.phone == phone && stone.listKey == listKey
  }

  /** A suppression that is not refused: the contact's row, its log and its stones; nothing else changes. */
  lemma {:induction false} SuppressionSets(db: Db, now: Time, s: Suppression)
    requires s.id in db.contacts && !s.scope.UnknownChannel? && HasWord(s.reason) && !(s.scope.All? && s.reason == "do_not_mail")
    ensures var after := Suppress(db, now, s);
            && after == db.(contacts := after.contacts, events := after.events, tombstones := after.tombstones)
            && after.contacts.Keys == db.contacts.Keys
            && (forall id :: id in db.contacts && id != s.id ==> after.contacts[id] == db.contacts[id])
            && IsSuppressedRow(db.contacts[s.id], after.contacts[s.id], s.scope)
            && after.events == db.events + SuppressionLog(db.contacts[s.id], s, now)
            && |db.tombstones| <= |after.tombstones| && after.tombstones[..|db.tombstones|] == db.tombstones
            && AreStones(after.tombstones[|db.tombstones|..], db.contacts[s.id].phone, s.listKey, s.scope)
  {
    SuppressionRefusedWhen(db, s);
    var c := db.contacts[s.id];
    StonesCover(c.phone, s.listKey, s.scope);
    AfterPrefix(db.tombstones, Stones(c.phone, s.listKey, s.scope));
    assert Suppress(db, now, s) == SuppressAs(db, now, s, c.owner);
    SuppressedRow(db, now, s);
    SuppressedLog(db, now, s);
  }

  lemma {:induction false} SuppressedRow(db: Db, now: Time, s: Suppression)
    requires s.id in db.contacts && !s.scope.UnknownChannel?
    ensures var after := SuppressAs(db, now, s, db.contacts[s.id].owner);
            && after == db.(contacts := after.contacts, events := after.events, tombstones := after.tombstones)
            && after.contacts.Keys == db.contacts.Keys
            && (forall id :: id in db.contacts && id != s.id ==> after.contacts[id] == db.contacts[id])
            && IsSuppressedRow(db.contacts[s.id], after.contacts[s.id], s.scope)
  {
    FlaggedColumns(db.contacts[s.id], s.scope);
    FlagTouches(db, now, s);
  }

  lemma {:induction false} FlagTouches(db: Db, now: Time, s: Suppression)
    requires s.id in db.contacts
    ensures var after := Flag(db, now, s);
            && after == db.(contacts := after.contacts, events := after.events, tombstones := after.tombstones)
            && after.contacts.Keys == db.contacts.Keys
            && (forall id :: id in db.contacts && id != s.id ==> after.contacts[id] == db.contacts[id])
            && after.contacts[s.id] == Flagged(db.contacts[s.id], s.scope)
  {
  }

  lemma {:induction false} FlaggedColumns(c: Contact, scope: Scope)
    requires !scope.UnknownChannel?
    ensures Flagged(c, scope) == c.(doNotMail := c.doNotMail || Covers(scope, Mail), doNotText := c.doNotText || Covers(scope, Sms),
                                    doNotCall := c.doNotCall || Covers(scope, Voice))
  {
  }

  lemma {:induction false} SuppressedLog(db: Db, now: Time, s: Suppression)
    requires s.id in db.contacts && !s.scope.UnknownChannel?
    ensures var after := SuppressAs(db, now, s, db.contacts[s.id].owner);
            && after.events == db.events + SuppressionLog(db.contacts[s.id], s, now)
            && after.tombstones == db.tombstones + Stones(db.contacts[s.id].phone, s.listKey, s.scope)
  {
    if Covers(s.scope, Voice) && db.contacts[s.id].owner != 1 {
      assert db.events + SuppressionLog(db.contacts[s.id], s, now)
             == db.events + [SuppressionEvent(s, now)]
                + [OwnershipEvent(s.id, HOUSE, ContactReclaimed, EndReason(s.scope), None, now)];
    }
  }

  lemma {:induction false} StonesCover(phone: Option<string>, listKey: Option<Id>, scope: Scope)
    requires !scope.UnknownChannel?
    ensures AreStones(Stones(phone, listKey, scope), phone, listKey, scope)
  {
    var stones := Stones(phone, listKey, scope);
    if scope.All? {
      assert stones == [Tombstone(phone, listKey, Mail), Tombstone(phone, listKey, Sms), Tombstone(phone, listKey, Voice)];
      forall stone: Tombstone | stone.phone == phone && stone.listKey == listKey ensures stone in stones {
        match stone.channel
        case Mail => assert stone == stones[0];
        case Sms => assert stone == stones[1];
        case Voice => assert stone == stones[2];
      }
    } else {
      assert stones == [Tombstone(phone, listKey, scope.channel)];
    }
  }

  /** Clearing takes the registry flag off and logs it once under its key; nothing else changes. */
  lemma {:induction false} ClearingTakesTheFlag(db: Db, now: Time, id: Id, source: Source, external: Option<ExternalId>)
    requires id in db.contacts
    ensures var after := ClearRegistry(db, now, id, source, external);
            && after == db.(contacts := after.contacts, events := after.events)
            && after.contacts.Keys == db.contacts.Keys
            && (forall x :: x in db.contacts && x != id ==> after.contacts[x] == db.contacts[x])
            && !after.contacts[id].dncRegistry
            && after.contacts[id].(dncRegistry := db.contacts[id].dncRegistry) == db.contacts[id]
            && (after.events == db.events || after.events == db.events + [Event(Some(id), None, source, ContactSuppressionCleared, now, external, Payload())])
            && (after.events == db.events <==> external.Some? && exists e :: e in db.events && e.source == source && e.external == external)
  {
    var e := ClearedEvent(id, source, external, now);
    assert e == Event(Some(id), None, source, ContactSuppressionCleared, now, external, Payload());
    AppendWhen(db.events, e);
  }

  /** append_event inserts unless the source has used the key before. */
  lemma {:induction false} AppendWhen(log: seq<Event>, e: Event)
    ensures Append(log, e) == log || Append(log, e) == log + [e]
    ensures Append(log, e) == log <==> e.external.Some? && exists other :: other in log && other.source == e.source && other.external == e.external
  {
    if other :| other in log && other.source == e.source && other.external == e.external {
      var i :| 0 <= i < |log| && log[i] == other;
    }
  }

  // The gates.

  /** The number's area code has a subscription. */
  ghost predicate InSubscribedArea(db: Db, phone: string) {
    exists code :: code in db.subscriptions && |code| == (if |phone| >= 5 then 3 else if |phone| >= 2 then |phone| - 2 else 0)
                   && forall i :: 0 <= i < |code| ==> code[i] == phone[i + 2]
  }

  /** Checked within 31 days, against a list not older than 31 days if against a list at all. */
  ghost predicate InWindow(snapshots: seq<Snapshots.Snapshot>, c: Contact, now: Time) {
    && c.dncCheckedAt.Some? && now - c.dncCheckedAt.value <= 31 * 24 * 3600
    && (c.dncSnapshot.Some? ==>
          && c.dncSnapshot.value < |snapshots| && snapshots[c.dncSnapshot.value].identity.Some?
          && now / 86400 - snapshots[c.dncSnapshot.value].identity.value.date <= 31)
  }

  /** What each cause of a shortfall says of a contact, on its own. */
  ghost predicate Has(db: Db, now: Time, c: Contact, cause: Cause) {
    match cause
    case SeedContact => c.isSeed
    case NoPhone => c.phone.None?
    case AlreadyAssigned => c.owner != 1 || c.batch.Some?
    case WonContact => c.stage == Won
    case MidFunnel => c.stage == Responded || c.stage == InConversation || c.stage == Suppressed
    case VoiceSuppressed => c.doNotCall
    case DncListed => c.dncRegistry
    case Tombstoned => c.phone.Some? && exists stone :: stone in db.tombstones && stone.phone == c.phone && stone.channel == Voice
    case DncUnsubscribed => c.phone.Some? && !InSubscribedArea(db, c.phone.value)
    case DncStale => !InWindow(db.snapshots, c, now)
  }

  /** The causes in the order they are looked for. */
  const CAUSES: seq<Cause> := [SeedContact, NoPhone, AlreadyAssigned, WonContact, MidFunnel,
                               VoiceSuppressed, DncListed, Tombstoned, DncUnsubscribed, DncStale]

  ghost predicate IsFirstCause(db: Db, now: Time, c: Contact, cause: Cause) {
    exists i :: 0 <= i < |CAUSES| && CAUSES[i] == cause && Has(db, now, c, cause)
                && forall j :: 0 <= j < i ==> !Has(db, now, c, CAUSES[j])
  }

  ghost function Rank(cause: Cause): (i: nat)
    ensures i < |CAUSES| && CAUSES[i] == cause
  {
    match cause
    case SeedContact => 0
    case NoPhone => 1
    case AlreadyAssigned => 2
    case WonContact => 3
    case MidFunnel => 4
    case VoiceSuppressed => 5
    case DncListed => 6
    case Tombstoned => 7
    case DncUnsubscribed => 8
    case DncStale => 9
  }

  /** A partner may be given the number: nothing is wrong with it. */
  ghost predicate Callable(db: Db, now: Time, c: Contact) {
    forall cause :: !Has(db, now, c, cause)
  }

  lemma {:induction false} TombstonedWhen(db: Db, phone: string)
    ensures HasVoiceTombstone(db, phone) <==> exists stone :: stone in db.tombstones && stone.phone == Some(phone) && stone.channel == Voice
  {
    if stone :| stone in db.tombstones && stone.phone == Some(phone) && stone.channel == Voice {
      var i :| 0 <= i < |db.tombstones| && db.tombstones[i] == stone;
    }
  }

  lemma {:induction false} SubscribedWhen(db: Db, phone: string)
    ensures AreaCode(phone) in db.subscriptions <==> InSubscribedArea(db, phone)
  {
    if code :| code in db.subscriptions && |code| == (if |phone| >= 5 then 3 else if |phone| >= 2 then |phone| - 2 else 0)
               && forall i :: 0 <= i < |code| ==> code[i] == phone[i + 2] {
      assert code == AreaCode(phone);
    }
  }

  lemma {:induction false} FreshWhen(snapshots: seq<Snapshots.Snapshot>, c: Contact, now: Time)
    ensures DncFresh(snapshots, c, now) <==> InWindow(snapshots, c, now)
  {
  }

  /** The gate's chain of tests, cause by cause. */
  function ChainOf(has: Cause -> bool): Option<Cause> {
    if has(SeedContact) then Some(SeedContact) else if has(NoPhone) then Some(NoPhone)
    else if has(AlreadyAssigned) then Some(AlreadyAssigned) else if has(WonContact) then Some(WonContact)
    else if has(MidFunnel) then Some(MidFunnel) else if has(VoiceSuppressed) then Some(VoiceSuppressed)
    else if has(DncListed) then Some(DncListed) else if has(Tombstoned) then Some(Tombstoned)
    else if has(DncUnsubscribed) then Some(DncUnsubscribed) else if has(DncStale) then Some(DncStale) else None
  }

  lemma {:induction false} ChainStops(has: Cause -> bool)
    ensures ChainOf(has).Some? ==> has(ChainOf(has).value) && forall j :: 0 <= j < Rank(ChainOf(has).value) ==> !has(CAUSES[j])
    ensures ChainOf(has).None? ==> forall cause :: !has(cause)
  {
    if ChainOf(has).None? {
      forall cause ensures !has(cause) {
        match cause
        case SeedContact => case NoPhone => case AlreadyAssigned => case WonContact => case MidFunnel =>
        case VoiceSuppressed => case DncListed => case Tombstoned => case DncUnsubscribed => case DncStale =>
      }
    }
  }

  lemma {:induction false} GateIsChain(db: Db, now: Time, c: Contact)
    ensures Gate(db, now, c) == ChainOf((cause: Cause) => Has(db, now, c, cause))
  {
    if c.phone.Some? {
      TombstonedWhen(db, c.phone.value);
      SubscribedWhen(db, c.phone.value);
    }
    FreshWhen(db.snapshots, c, now);
  }

  /** The gate names the first cause that the contact has, in the order of the causes; it passes exactly the
      contacts that have none. */
  lemma {:induction false} GateNamesFirstCause(db: Db, now: Time, c: Contact)
    ensures forall cause :: Gate(db, now, c) == Some(cause) <==> IsFirstCause(db, now, c, cause)
    ensures Gate(db, now, c).None? <==> Callable(db, now, c)
  {
    var has := (cause: Cause) => Has(db, now, c, cause);
    GateIsChain(db, now, c);
    ChainStops(has);
    if Gate(db, now, c).Some? {
      var first := Gate(db, now, c).value;
      assert CAUSES[Rank(first)] == first && has(first) == Has(db, now, c, first);
      assert forall j :: 0 <= j < Rank(first) ==> has(CAUSES[j]) == Has(db, now, c, CAUSES[j]);
      assert IsFirstCause(db, now, c, first);
      forall cause | IsFirstCause(db, now, c, cause) ensures cause == first {
        var i :| 0 <= i < |CAUSES| && CAUSES[i] == cause && Has(db, now, c, cause) && forall j :: 0 <= j < i ==> !Has(db, now, c, CAUSES[j]);
        assert !(Rank(first) < i);
      }
    } else {
      assert forall cause :: has(cause) == Has(db, now, c, cause);
    }
  }

  // Assigning.

  /** The selection: the ids asked for that exist, or those of the rule's matches that exist and are no seed. */
  ghost predicate IsCandidate(db: Db, call: AssignCall, matches: set<Id>, id: Id) {
    && id in db.contacts
    && match call.ids
       case Some(asked) => id in asked
       case None => id in matches && !db.contacts[id].isSeed
  }

  lemma {:induction false} CandidatesInOrder(db: Db, call: AssignCall, matches: set<Id>)
    ensures IsAscending(Candidates(db, call, matches))
    ensures forall id :: id in Candidates(db, call, matches) <==> IsCandidate(db, call, matches, id)
  {
  }

  function Distance(a: int, b: int): nat {
    if a <= b then b - a else a - b
  }

  /** A multiple of 50 between 100 and 500 that no other one comes closer to 12 leads per weekly hour than. */
  ghost predicate IsBatchSize(weeklyHours: int, n: int) {
    && 100 <= n <= 500 && n % 50 == 0
    && forall m :: 100 <= m <= 500 && m % 50 == 0 ==> Distance(n, 12 * weeklyHours) <= Distance(m, 12 * weeklyHours)
  }

  lemma {:induction false} SizeIsNearest(weeklyHours: int)
    ensures IsBatchSize(weeklyHours, DerivedBatchSize(weeklyHours))
    ensures forall n :: IsBatchSize(weeklyHours, n) ==> n == DerivedBatchSize(weeklyHours)
  {
    var size := DerivedBatchSize(weeklyHours);
    assert size % 50 == 0;
    forall m | 100 <= m <= 500 && m % 50 == 0 && m != size ensures Distance(size, 12 * weeklyHours) < Distance(m, 12 * weeklyHours) {
      var k, l := size / 50, m / 50;
      assert size == 50 * k && m == 50 * l && k != l;
    }
  }

  /** How many leads the call is for: its own count, none for the id-list form, or the partner's size. */
  ghost predicate AsksFor(db: Db, call: AssignCall, count: Option<int>) {
    if call.count.Some? || call.ids.Some? then count == call.count
    else && call.partner in db.partners && db.partners[call.partner].weeklyHours.Some? && count.Some?
         && IsBatchSize(db.partners[call.partner].weeklyHours.value, count.value)
  }

  lemma {:induction false} CountIsAsked(db: Db, call: AssignCall, count: Option<int>)
    requires IsNewBatch(db, call)
    ensures AsksFor(db, call, count) <==> count == CountOf(db, call)
  {
    if call.count.None? && call.ids.None? {
      SizeIsNearest(db.partners[call.partner].weeklyHours.value);
    }
  }

  /** The callable candidates before this one. */
  ghost function Earlier(db: Db, now: Time, call: AssignCall, matches: set<Id>, id: Id): set<Id> {
    set other | other in db.contacts && IsCandidate(db, call, matches, other) && Callable(db, now, db.contacts[other]) && other < id
  }

  /** The leads of a call for that many: the callable candidates with fewer than that many before them. */
  ghost function LeadsOf(db: Db, now: Time, call: AssignCall, matches: set<Id>, count: Option<int>): set<Id> {
    set id | id in db.contacts && IsCandidate(db, call, matches, id) && Callable(db, now, db.contacts[id])
             && (count.Some? ==> |Earlier(db, now, call, matches, id)| < count.value)
  }

  lemma {:induction false} PassesWhenCallable(db: Db, now: Time, id: Id)
    ensures Passes(db, now, id) <==> id in db.contacts && Callable(db, now, db.contacts[id])
  {
    if id in db.contacts {
      GateNamesFirstCause(db, now, db.contacts[id]);
    }
  }

  lemma {:induction false} BelowInOrder(s: seq<Id>, i: nat)
    requires IsAscending(s) && i <= |s|
    ensures |set k | 0 <= k < i :: s[k]| == i
  {
    if i > 0 {
      BelowInOrder(s, i - 1);
      assert (set k | 0 <= k < i :: s[k]) == (set k | 0 <= k < i - 1 :: s[k]) + {s[i - 1]};
    }
  }

  /** Of an ascending list the first n are the elements with fewer than n below them. */
  lemma {:induction false} FirstWhenFewBelow(s: seq<Id>, count: Option<int>, id: Id, below: set<Id>)
    requires IsAscending(s) && id in s && forall x :: x in below <==> x in s && x < id
    ensures id in FirstN(s, count) <==> (count.Some? ==> |below| < count.value)
  {
    var i :| 0 <= i < |s| && s[i] == id;
    BelowInOrder(s, i);
    assert below == set k | 0 <= k < i :: s[k];
    var first := FirstN(s, count);
    assert i < |first| ==> first[i] == id;
    assert forall k :: 0 <= k < |first| ==> first[k] == s[k];
  }

  lemma {:induction false} ChosenAreLeads(db: Db, now: Time, call: AssignCall, matches: set<Id>, count: Option<int>)
    requires call.partner in db.partners && count == CountOf(db, call)
    ensures AreInOrder(Chosen(db, now, call, matches), LeadsOf(db, now, call, matches, count))
  {
    CandidatesInOrder(db, call, matches);
    var passing := Passing(db, now, Candidates(db, call, matches));
    PassingAscends(db, now, Candidates(db, call, matches));
    forall id: Id ensures id in passing <==> id in db.contacts && IsCandidate(db, call, matches, id) && Callable(db, now, db.contacts[id]) {
      PassesWhenCallable(db, now, id);
    }
    var chosen := Chosen(db, now, call, matches);
    assert chosen <= passing;
    assert forall k :: 0 <= k < |chosen| ==> chosen[k] == passing[k];
    forall id: Id ensures id in chosen <==> id in LeadsOf(db, now, call, matches, count) {
      if id in passing {
        FirstWhenFewBelow(passing, count, id, Earlier(db, now, call, matches, id));
      }
    }
  }

  ghost predicate IsOpenedRow(row: Batch, call: AssignCall, count: Option<int>, delivered: nat, now: Time) {
    && row.partner == call.partner && row.key == call.key && row.request == RequestOf(call)
    && row.requested == count && row.delivered == delivered && row.expiresAt == now + 90 * 24 * 3600
  }

  /** What a call that opens a batch does: one row more, on file for 90 days, and exactly its leads moved. */
  lemma {:induction false} AssignsExactly(db: Db, now: Time, call: AssignCall, matches: set<Id>, batch: Id, count: Option<int>)
    requires IsNewBatch(db, call) && AsksFor(db, call, count) && batch !in db.batches
    ensures var after := Assign(db, now, call, matches, batch);
            && Moved(db.(batches := after.batches), after, LeadsOf(db, now, call, matches, count),
                     call.partner, ContactAssigned, "assigned", Some(batch), now)
            && after.batches.Keys == db.batches.Keys + {batch}
            && (forall b :: b in db.batches ==> after.batches[b] == db.batches[b])
            && IsOpenedRow(after.batches[batch], call, count, |LeadsOf(db, now, call, matches, count)|, now)
  {
    CountIsAsked(db, call, count);
    ChosenAreLeads(db, now, call, matches, count);
    var leads, chosen := LeadsOf(db, now, call, matches, count), Chosen(db, now, call, matches);
    var ready := WithBatch(db, now, call, matches, batch);
    InOrderSize(chosen, leads);
    MovesAreMoved(ready, leads, chosen, call.partner, ContactAssigned, "assigned", Some(batch), now);
    assert Assign(db, now, call, matches, batch)
           == SetOwners(ready, chosen, call.partner, ContactAssigned, "assigned", Some(batch), now);
  }

  lemma {:induction false} InOrderSize(ids: seq<Id>, s: set<Id>)
    requires AreInOrder(ids, s)
    ensures |ids| == |s|
  {
    BelowInOrder(ids, |ids|);
    assert s == set k | 0 <= k < |ids| :: ids[k];
  }

  /** The candidates that a cause keeps back. */
  ghost function KeptBack(db: Db, now: Time, call: AssignCall, matches: set<Id>, cause: Cause): set<Id> {
    set id | id in db.contacts && IsCandidate(db, call, matches, id) && IsFirstCause(db, now, db.contacts[id], cause)
  }

  /** The shortfall lists, in order of id, who is kept back by each cause that keeps anyone back. */
  lemma {:induction false} ShortfallExactly(db: Db, now: Time, call: AssignCall, matches: set<Id>, shortfall: map<Cause, seq<Id>>, cause: Cause)
    requires IsShortfall(db, now, Candidates(db, call, matches), shortfall)
    ensures cause in shortfall <==> KeptBack(db, now, call, matches, cause) != {}
    ensures cause in shortfall ==> AreInOrder(shortfall[cause], KeptBack(db, now, call, matches, cause))
  {
    var candidates := Candidates(db, call, matches);
    CandidatesInOrder(db, call, matches);
    FailingAscends(db, now, cause, candidates);
    forall id: Id ensures id in Failing(db, now, cause, candidates) <==> id in KeptBack(db, now, call, matches, cause) {
      if id in db.contacts {
        GateNamesFirstCause(db, now, db.contacts[id]);
      }
    }
    if id :| id in KeptBack(db, now, call, matches, cause) {
      assert id in candidates && Fails(db, now, cause, id);
    }
    if cause in shortfall {
      assert shortfall[cause][0] in Failing(db, now, cause, candidates);
    }
  }

  lemma {:induction false} FailingAscends(db: Db, now: Time, cause: Cause, ids: seq<Id>)
    requires IsAscending(ids)
    ensures IsAscending(Failing(db, now, cause, ids))
  {
    if ids != [] {
      var front, last := ids[..|ids| - 1], ids[|ids| - 1];
      FailingAscends(db, now, cause, front);
      var rest := Failing(db, now, cause, front);
      forall i | 0 <= i < |rest| ensures rest[i] < last {
        assert rest[i] in rest;
        var j :| 0 <= j < |front| && front[j] == rest[i];
        assert ids[j] == rest[i];
      }
    }
  }

  // Refusing an assignment.

  /** Neither a rule nor ids nor a count. */
  ghost predicate IsBare(call: AssignCall) {
    call.rule.None? && call.ids.None? && call.count.None?
  }

  ghost predicate SameRule(a: AssignCall, b: AssignCall) {
    || (a.rule == b.rule && IsBare(a) == IsBare(b))
    || (IsBare(a) && b.rule == Some(map[]))
    || (IsBare(b) && a.rule == Some(map[]))
  }

  ghost predicate SameIds(a: AssignCall, b: AssignCall) {
    a.ids == b.ids || (NoIds(a) && NoIds(b))
  }

  ghost predicate NoIds(call: AssignCall) {
    call.ids.None? || |call.ids.value| == 0
  }

  /** Two calls are one request when the partner, the count, the rule and the ids agree, a bare call being
      one with the empty rule and an empty list being none. */
  lemma {:induction false} SameRequestWhen(a: AssignCall, b: AssignCall)
    ensures RequestOf(a) == RequestOf(b) <==> a.partner == b.partner && a.count == b.count && SameRule(a, b) && SameIds(a, b)
  {
  }

  ghost predicate KeyIsUsed(db: Db, key: string) {
    exists b :: b in db.batches && db.batches[b].key == key
  }

  /** What each refusal says of a call, on its own. */
  ghost predicate IsWrong(db: Db, call: AssignCall, error: Error) {
    match error
    case BadRequest => call.rule.Some? && call.ids.Some?
    case NoPartner => call.partner !in db.partners
    case InactivePartner => call.partner in db.partners && !db.partners[call.partner].active
    case KeyMismatch => exists b :: b in db.batches && db.batches[b].key == call.key && db.batches[b].request != RequestOf(call)
    case NoCount => !KeyIsUsed(db, call.key) && call.partner in db.partners && call.ids.None? && call.count.None?
                    && db.partners[call.partner].weeklyHours.None?
    case BadRuleKey => !KeyIsUsed(db, call.key) && call.ids.None? && call.rule.Some?
                       && exists k :: k in call.rule.value && k != "segment" && k != "trade" && k != "source" && k != "city"
                                      && k != "zip_prefix" && k != "area_code"
    case _ => false
  }

  const REFUSALS: seq<Error> := [BadRequest, NoPartner, InactivePartner, KeyMismatch, NoCount, BadRuleKey]

  ghost predicate IsFirstWrong(db: Db, call: AssignCall, error: Error) {
    exists i :: 0 <= i < |REFUSALS| && REFUSALS[i] == error && IsWrong(db, call, error)
                && forall j :: 0 <= j < i ==> !IsWrong(db, call, REFUSALS[j])
  }

  lemma {:induction false} RuleIsBadWhen(rule: Rule)
    ensures BadRule(rule) <==> exists k :: k in rule && k != "segment" && k != "trade" && k != "source" && k != "city"
                                           && k != "zip_prefix" && k != "area_code"
  {
  }

  lemma {:induction false} KeyMismatchWhen(db: Db, call: AssignCall)
    requires KeysUnique(db)
    ensures KeyIsUsed(db, call.key) <==> KeyHolders(db, call.key) != {}
    ensures KeyHolders(db, call.key) != {} ==>
              (IsWrong(db, call, KeyMismatch) <==> db.batches[MinOf(KeyHolders(db, call.key))].request != RequestOf(call))
    ensures KeyHolders(db, call.key) == {} ==> !IsWrong(db, call, KeyMismatch)
  {
    if b :| b in db.batches && db.batches[b].key == call.key {
      assert b in KeyHolders(db, call.key);
      assert db.batches[MinOf(KeyHolders(db, call.key))].key == call.key;
    }
  }

  /** A call is refused for the first thing wrong with it, and goes ahead when nothing is. */
  lemma {:induction false} RefusedForFirstWrong(db: Db, call: AssignCall)
    requires KeysUnique(db)
    ensures forall error :: Refusal(db, call) == Some(error) <==> IsFirstWrong(db, call, error)
    ensures IsNewBatch(db, call) <==> (forall error :: !IsWrong(db, call, error)) && !KeyIsUsed(db, call.key)
  {
    KeyMismatchWhen(db, call);
    if call.rule.Some? {
      RuleIsBadWhen(call.rule.value);
    }
    assert !BadRule(map[]);
    if Refusal(db, call).Some? {
      var i := RefusalRank(db, call);
      assert IsFirstWrong(db, call, REFUSALS[i]);
    }
  }

  lemma {:induction false} RefusalRank(db: Db, call: AssignCall) returns (i: nat)
    requires KeysUnique(db) && Refusal(db, call).Some?
    ensures i < |REFUSALS| && Refusal(db, call).value == REFUSALS[i] && IsWrong(db, call, REFUSALS[i])
    ensures forall j :: 0 <= j < i ==> !IsWrong(db, call, REFUSALS[j])
  {
    KeyMismatchWhen(db, call);
    if call.rule.Some? {
      RuleIsBadWhen(call.rule.value);
    }
    assert !BadRule(map[]);
    var error := Refusal(db, call).value;
    i := if error == BadRequest then 0 else if error == NoPartner then 1 else if error == InactivePartner then 2
         else if error == KeyMismatch then 3 else if error == NoCount then 4 else 5;
  }

  // Exporting.

  /** What a partner's sheet is drawn from: the leads held in a batch on file that no flag forbids. */
  ghost predicate IsOffered(db: Db, partner: Id, id: Id) {
    && id in db.contacts && db.contacts[id].owner == partner && !db.contacts[id].doNotCall && !db.contacts[id].dncRegistry
    && db.contacts[id].batch.Some? && db.contacts[id].batch.value in db.batches
  }

  ghost function OfferedInWindow(db: Db, now: Time, partner: Id): set<Id> {
    set id | id in db.contacts && IsOffered(db, partner, id) && InWindow(db.snapshots, db.contacts[id], now)
  }

  ghost function OfferedButStale(db: Db, now: Time, partner: Id): set<Id> {
    set id | id in db.contacts && IsOffered(db, partner, id) && !InWindow(db.snapshots, db.contacts[id], now)
  }

  ghost predicate AreRows(db: Db, now: Time, rows: seq<SheetRow>, ids: seq<Id>)
    requires Sheetable(db, ids)
  {
    && |rows| == |ids|
    && forall i :: 0 <= i < |ids| ==>
         rows[i] == SheetRow(ids[i], db.contacts[ids[i]].phone, db.batches[db.contacts[ids[i]].batch.value].expiresAt, now)
  }

  lemma {:induction false} RowsOfFresh(db: Db, now: Time, ids: seq<Id>) returns (current: seq<Id>)
    requires Sheetable(db, ids) && IsAscending(ids)
    ensures IsAscending(current) && forall id :: id in current <==> id in ids && InWindow(db.snapshots, db.contacts[id], now)
    ensures Sheetable(db, current) && AreRows(db, now, SheetRows(db, now, ids), current)
  {
    current := [];
    if ids != [] {
      var front, last := ids[..|ids| - 1], ids[|ids| - 1];
      assert ids == front + [last];
      current := RowsOfFresh(db, now, front);
      FreshWhen(db.snapshots, db.contacts[last], now);
      forall i | 0 <= i < |current| ensures current[i] < last {
        assert current[i] in front;
        var j :| 0 <= j < |front| && front[j] == current[i];
        assert ids[j] == current[i];
      }
      if DncFresh(db.snapshots, db.contacts[last], now) {
        current := current + [last];
      }
    }
  }

  /** The sheet has a row for each offered lead in the window, in order of id, and the shortfall lists the rest. */
  lemma {:induction false} SheetIsExactly(db: Db, now: Time, partner: Id) returns (ids: seq<Id>)
    ensures AreInOrder(ids, OfferedInWindow(db, now, partner)) && AreRows(db, now, Sheet(db, now, partner), ids)
    ensures AreInOrder(Stale(db, now, SheetIds(db, partner)), OfferedButStale(db, now, partner))
  {
    forall id: Id ensures id in SheetIds(db, partner) <==> IsOffered(db, partner, id) {
    }
    ids := RowsOfFresh(db, now, SheetIds(db, partner));
    StaleInOrder(db, now, SheetIds(db, partner));
    forall id: Id ensures id in Stale(db, now, SheetIds(db, partner)) <==> id in OfferedButStale(db, now, partner) {
      if id in db.contacts {
        FreshWhen(db.snapshots, db.contacts[id], now);
      }
    }
  }

  lemma {:induction false} StaleInOrder(db: Db, now: Time, ids: seq<Id>)
    requires IsAscending(ids)
    ensures IsAscending(Stale(db, now, ids))
  {
    if ids != [] {
      var front, last := ids[..|ids| - 1], ids[|ids| - 1];
      StaleInOrder(db, now, front);
      var rest := Stale(db, now, front);
      forall i | 0 <= i < |rest| ensures rest[i] < last {
        assert rest[i] in rest;
        var j :| 0 <= j < |front| && front[j] == rest[i];
        assert ids[j] == rest[i];
      }
    }
  }
  // A retry's receipt.

  /** An event records that the contact was given to the batch. */
  ghost predicate WasGiven(events: seq<Event>, batch: Id, id: Id) {
    exists i :: 0 <= i < |events| && events[i].kind == ContactAssigned && events[i].payload.batch == Some(batch)
                && events[i].contact == Some(id)
  }

  /** The receipt of a batch lists in order of id who points at it now, and who was given to it and no longer does. */
  lemma {:induction false} ReceiptIsExactly(db: Db, batch: Id)
    ensures var r := RetryReceipt(db, batch);
            && r.batch == batch && IsAscending(r.held) && IsAscending(r.released)
            && (forall id :: id in r.held <==> id in db.contacts && db.contacts[id].batch == Some(batch))
            && (forall id :: id in r.released <==>
                  WasGiven(db.events, batch, id) && !(id in db.contacts && db.contacts[id].batch == Some(batch)))
  {
    forall id ensures id in Members(db.events, batch) <==> WasGiven(db.events, batch, id) {
    }
  }
}
