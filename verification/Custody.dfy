/** Who holds which lead: the custody columns, their event log, and the verbs that move them
    (service/assignment.py, service/custody.py, derivation/custody.py, service/contacts.py,
    jobs/dnc_refresh.py). Each verb is a function from the tables and the clock to the tables. */
module Custody {
  import opened Types
  import opened Derivation
  import opened Registry
  import opened Snapshots

  const DNC_FRESHNESS_DAYS := 31
  const DNC_RECHECK_DAYS := 21
  const ASSIGNMENT_EXPIRY_DAYS := 90

  datatype Contact = Contact(
    phone: Option<string>,
    isSeed: bool,
    owner: Id,
    batch: Option<Id>,
    stage: Stage,
    addressUndeliverable: bool,
    doNotMail: bool,
    doNotText: bool,
    doNotCall: bool,
    dncRegistry: bool,
    dncCheckedAt: Option<Time>,
    dncSnapshot: Option<Id>)

  datatype Partner = Partner(active: bool, weeklyHours: Option<int>, lastExportAt: Option<Time>)

  type Rule = map<string, seq<string>>

  /** What request_hash covers; the hash is taken as injective. */
  datatype Request = Request(partner: Id, rule: Option<Rule>, count: Option<int>, ids: Option<seq<Id>>)

  datatype Batch = Batch(partner: Id, key: string, request: Request, requested: Option<int>, delivered: nat, expiresAt: Time)

  /** What a suppression is asked to block. */
  datatype Scope = Only(channel: Channel) | All | UnknownChannel(text: string)

  /** A call of suppress; `listKey` is the key of the contact's primary intake row, which it looks up. */
  datatype Suppression = Suppression(id: Id, scope: Scope, reason: string, listKey: Option<Id>)

  datatype Db = Db(
    contacts: map<Id, Contact>,
    batches: map<Id, Batch>,
    partners: map<Id, Partner>,
    events: seq<Event>,
    subscriptions: set<string>,
    tombstones: seq<Tombstone>,
    snapshots: seq<Snapshot>)

  datatype Error =
    | BadRequest | NoPartner | InactivePartner | KeyMismatch | NoCount | BadRuleKey
    | BadReason | BadChannel | NoContact | NotClearable

  // Ownership, per the events.

  const OWNERSHIP: set<EventType> := {ContactAssigned, ContactAssignmentExpired, ContactReclaimed}

  predicate IsOwnership(e: Event) {
    e.kind in OWNERSHIP && e.payload.newOwner.Some?
  }

  /** The last ownership event's new owner; the house when there is none. */
  function CurrentOwner(events: seq<Event>): Id {
    if events == [] then HOUSE
    else if IsOwnership(events[|events| - 1]) then events[|events| - 1].payload.newOwner.value
    else CurrentOwner(events[..|events| - 1])
  }

  method CurrentOwnerOf(events: seq<Event>) returns (owner: Id)
    ensures owner == CurrentOwner(events)
  {
    owner := HOUSE;
    var i := 0;
    while i < |events|
      invariant 0 <= i <= |events|
      invariant owner == CurrentOwner(events[..i])
    {
      assert events[..i + 1][..i] == events[..i];
      if IsOwnership(events[i]) {
        owner := events[i].payload.newOwner.value;
      }
      i := i + 1;
    }
    assert events[..|events|] == events;
  }

  /** Insertion that keeps (occurred_at, id) order: e has the highest id so far. */
  function Insert(timeline: seq<Event>, e: Event): seq<Event> {
    if timeline == [] || timeline[|timeline| - 1].at <= e.at then timeline + [e]
    else Insert(timeline[..|timeline| - 1], e) + [timeline[|timeline| - 1]]
  }

  /** A contact's events in (occurred_at, id) order. */
  function Timeline(log: seq<Event>, contact: Id): seq<Event> {
    if log == [] then [] else
    var before := Timeline(log[..|log| - 1], contact);
    var e := log[|log| - 1];
    if e.contact == Some(contact) then Insert(before, e) else before
  }

  function OwnerPerEvents(db: Db, contact: Id): Id {
    CurrentOwner(Timeline(db.events, contact))
  }

  // The gates.

  /** The area code of +1AAANNNNNNN, and the ten-digit national number. */
  function AreaCode(phone: string): string {
    if |phone| >= 5 then phone[2..5] else if |phone| >= 2 then phone[2..] else ""
  }

  function National(phone: string): string {
    if "+1" <= phone then phone[2..] else phone
  }

  function VersionDate(snapshots: seq<Snapshot>, id: Id): Option<int> {
    if id < |snapshots| && snapshots[id].identity.Some? then Some(snapshots[id].identity.value.date) else None
  }

  /** The check is inside the safe-harbor window, and so is the list behind its verdict. */
  predicate DncFresh(snapshots: seq<Snapshot>, c: Contact, now: Time) {
    && c.dncCheckedAt.Some?
    && c.dncCheckedAt.value >= now - DNC_FRESHNESS_DAYS * DAY
    && (c.dncSnapshot.None? ||
        (VersionDate(snapshots, c.dncSnapshot.value).Some? &&
         VersionDate(snapshots, c.dncSnapshot.value).value >= DateOf(now) - DNC_FRESHNESS_DAYS))
  }

  datatype Cause =
    | SeedContact | NoPhone | AlreadyAssigned | WonContact | MidFunnel
    | VoiceSuppressed | DncListed | Tombstoned | DncUnsubscribed | DncStale

  predicate HasVoiceTombstone(db: Db, phone: string) {
    exists i :: 0 <= i < |db.tombstones| && db.tombstones[i].phone == Some(phone) && db.tombstones[i].channel == Voice
  }

  /** First failing gate names the shortfall cause; None is assignable. */
  function Gate(db: Db, now: Time, c: Contact): Option<Cause> {
    if c.isSeed then Some(SeedContact)
    else if c.phone.None? then Some(NoPhone)
    else if c.batch.Some? || c.owner != HOUSE then Some(AlreadyAssigned)
    else if c.stage == Won then Some(WonContact)
    else if c.stage !in {Prospect, InSequence, Lost} then Some(MidFunnel)
    else if c.doNotCall then Some(VoiceSuppressed)
    else if c.dncRegistry then Some(DncListed)
    else if HasVoiceTombstone(db, c.phone.value) then Some(Tombstoned)
    else if AreaCode(c.phone.value) !in db.subscriptions then Some(DncUnsubscribed)
    else if !DncFresh(db.snapshots, c, now) then Some(DncStale)
    else None
  }

  predicate Fails(db: Db, now: Time, cause: Cause, id: Id) {
    id in db.contacts && Gate(db, now, db.contacts[id]) == Some(cause)
  }

  predicate Passes(db: Db, now: Time, id: Id) {
    id in db.contacts && Gate(db, now, db.contacts[id]).None?
  }

  function Passing(db: Db, now: Time, ids: seq<Id>): (r: seq<Id>)
    ensures forall id :: id in r <==> id in ids && Passes(db, now, id)
  {
    if ids == [] then [] else
    var last := ids[|ids| - 1];
    var rest := Passing(db, now, ids[..|ids| - 1]);
    assert ids == ids[..|ids| - 1] + [last];
    if Passes(db, now, last) then rest + [last] else rest
  }

  function Failing(db: Db, now: Time, cause: Cause, ids: seq<Id>): (r: seq<Id>)
    ensures forall id :: id in r <==> id in ids && Fails(db, now, cause, id)
  {
    if ids == [] then [] else
    var last := ids[|ids| - 1];
    var rest := Failing(db, now, cause, ids[..|ids| - 1]);
    assert ids == ids[..|ids| - 1] + [last];
    if Fails(db, now, cause, last) then rest + [last] else rest
  }

  /** The first n of s; all of s when there is no count, none when it is negative. */
  function FirstN(s: seq<Id>, count: Option<int>): (r: seq<Id>)
    ensures r <= s
    ensures count.None? ==> r == s
    ensures count.Some? ==> |r| == if count.value < 0 then 0 else if count.value < |s| then count.value else |s|
  {
    if count.None? || |s| <= count.value then s else if count.value < 0 then [] else s[..count.value]
  }

  predicate IsShortfall(db: Db, now: Time, ids: seq<Id>, shortfall: map<Cause, seq<Id>>) {
    && (forall cause :: cause in shortfall ==> shortfall[cause] == Failing(db, now, cause, ids) && shortfall[cause] != [])
    && (forall id :: id in ids && id in db.contacts && !Passes(db, now, id) ==>
          Gate(db, now, db.contacts[id]).value in shortfall)
  }

  // The single custody writer.

  function OwnershipEvent(id: Id, owner: Id, kind: EventType, reason: string, batch: Option<Id>, now: Time): Event {
    Event(Some(id), None, System, kind, now, None,
          Payload(reason := Some(reason), newOwner := Some(owner), batch := batch))
  }

  /** set_owner: the owner column, the batch pointer and the ownership event, together. */
  function SetOwner(db: Db, id: Id, owner: Id, kind: EventType, reason: string, batch: Option<Id>, now: Time): Db
    requires id in db.contacts
  {
    db.(contacts := db.contacts[id := db.contacts[id].(owner := owner, batch := batch)],
        events := Append(db.events, OwnershipEvent(id, owner, kind, reason, batch, now)))
  }

  function SetOwners(db: Db, ids: seq<Id>, owner: Id, kind: EventType, reason: string, batch: Option<Id>, now: Time): (r: Db)
    requires forall id :: id in ids ==> id in db.contacts
    ensures r.contacts.Keys == db.contacts.Keys
  {
    if ids == [] then db else
    var last := ids[|ids| - 1];
    assert ids == ids[..|ids| - 1] + [last];
    SetOwner(SetOwners(db, ids[..|ids| - 1], owner, kind, reason, batch, now), last, owner, kind, reason, batch, now)
  }

  function OwnershipEvents(ids: seq<Id>, owner: Id, kind: EventType, reason: string, batch: Option<Id>, now: Time): (r: seq<Event>)
    ensures |r| == |ids|
    ensures forall i :: 0 <= i < |r| ==> r[i] == OwnershipEvent(ids[i], owner, kind, reason, batch, now)
  {
    if ids == [] then [] else
    OwnershipEvents(ids[..|ids| - 1], owner, kind, reason, batch, now)
      + [OwnershipEvent(ids[|ids| - 1], owner, kind, reason, batch, now)]
  }

  /** What a whole list of moves does: exactly the listed contacts move, and nothing else changes. */
  lemma {:induction false} SetOwnersMoves(db: Db, ids: seq<Id>, owner: Id, kind: EventType, reason: string, batch: Option<Id>, now: Time)
    requires forall id :: id in ids ==> id in db.contacts
    ensures forall id :: id in db.contacts ==>
              SetOwners(db, ids, owner, kind, reason, batch, now).contacts[id]
              == (if id in ids then db.contacts[id].(owner := owner, batch := batch) else db.contacts[id])
  {
    if ids != [] {
      var front := ids[..|ids| - 1];
      assert ids == front + [ids[|ids| - 1]];
      SetOwnersMoves(db, front, owner, kind, reason, batch, now);
    }
  }

  /** Each move appends one ownership event, in the order of the list. */
  lemma {:induction false} SetOwnersLogs(db: Db, ids: seq<Id>, owner: Id, kind: EventType, reason: string, batch: Option<Id>, now: Time)
    requires forall id :: id in ids ==> id in db.contacts
    ensures var r := SetOwners(db, ids, owner, kind, reason, batch, now);
            && r.events == db.events + OwnershipEvents(ids, owner, kind, reason, batch, now)
            && r == db.(contacts := r.contacts, events := r.events)
  {
    if ids != [] {
      var front, last := ids[..|ids| - 1], ids[|ids| - 1];
      assert ids == front + [last];
      SetOwnersLogs(db, front, owner, kind, reason, batch, now);
      SetOwnerLogs(SetOwners(db, front, owner, kind, reason, batch, now), last, owner, kind, reason, batch, now);
      assert OwnershipEvents(ids, owner, kind, reason, batch, now)
             == OwnershipEvents(front, owner, kind, reason, batch, now) + [OwnershipEvent(last, owner, kind, reason, batch, now)];
    }
  }

  lemma {:induction false} SetOwnerLogs(db: Db, id: Id, owner: Id, kind: EventType, reason: string, batch: Option<Id>, now: Time)
    requires id in db.contacts
    ensures var r := SetOwner(db, id, owner, kind, reason, batch, now);
            && r.events == db.events + [OwnershipEvent(id, owner, kind, reason, batch, now)]
            && r == db.(contacts := r.contacts, events := r.events)
  {
  }

  // Assigning.

  datatype AssignCall = AssignCall(partner: Id, key: string, rule: Option<Rule>, count: Option<int>, ids: Option<seq<Id>>)

  datatype AssignResult =
    | Declined(error: Error)
    | Receipt(batch: Id, held: seq<Id>, released: seq<Id>)
    | NewBatch(batch: Id, leads: seq<Id>, shortfall: map<Cause, seq<Id>>)

  const ALLOWED_RULE_KEYS: set<string> := {"segment", "trade", "source", "city", "zip_prefix", "area_code"}

  predicate BadRule(rule: Rule) {
    exists k :: k in rule && k !in ALLOWED_RULE_KEYS
  }

  function RuleOf(call: AssignCall): Option<Rule> {
    if call.rule.None? && call.ids.None? && call.count.None? then Some(map[]) else call.rule
  }

  function RequestOf(call: AssignCall): Request {
    Request(call.partner, RuleOf(call), call.count, if call.ids == Some([]) then None else call.ids)
  }

  /** 12 x weekly hours, rounded to the nearest 50, between 100 and 500. A tie cannot occur. */
  function DerivedBatchSize(weeklyHours: int): int {
    var rounded := (12 * weeklyHours + 25) / 50 * 50;
    if rounded > 500 then 500 else if rounded < 100 then 100 else rounded
  }

  function KeyHolders(db: Db, key: string): set<Id> {
    set b | b in db.batches && db.batches[b].key == key
  }

  function Members(events: seq<Event>, batch: Id): set<Id> {
    set i | 0 <= i < |events| && events[i].kind == ContactAssigned
            && events[i].payload.batch == Some(batch) && events[i].contact.Some? :: events[i].contact.value
  }

  function Holding(db: Db, batch: Id): set<Id> {
    set id | id in db.contacts && db.contacts[id].batch == Some(batch)
  }

  function Holdings(db: Db, partner: Id): set<Id> {
    set id | id in db.contacts && db.contacts[id].owner == partner
  }

  /** The original membership, split into what the batch still holds and what has since been released. */
  function RetryReceipt(db: Db, batch: Id): AssignResult {
    Receipt(batch, Ascending(Holding(db, batch)), Ascending(Members(db.events, batch) - Holding(db, batch)))
  }

  /** The selection: `matches` is what the rule's where-clause selects on the current rows. */
  function Candidates(db: Db, call: AssignCall, matches: set<Id>): (r: seq<Id>)
    ensures IsAscending(r) && forall id :: id in r ==> id in db.contacts
  {
    if call.ids.Some? then Ascending(set id | id in call.ids.value && id in db.contacts)
    else Ascending(set id | id in matches && id in db.contacts && !db.contacts[id].isSeed)
  }

  /** How many leads a valid new call asks for; the id-list form has no default. */
  function CountOf(db: Db, call: AssignCall): Option<int>
    requires call.partner in db.partners
  {
    if call.ids.None? && call.count.None? && db.partners[call.partner].weeklyHours.Some?
    then Some(DerivedBatchSize(db.partners[call.partner].weeklyHours.value)) else call.count
  }

  /** The refusals a call meets before it touches a lead, in the order they are raised. */
  function Refusal(db: Db, call: AssignCall): Option<Error> {
    if call.rule.Some? && call.ids.Some? then Some(BadRequest)
    else if call.partner !in db.partners then Some(NoPartner)
    else if !db.partners[call.partner].active then Some(InactivePartner)
    else if KeyHolders(db, call.key) != {} then
      if db.batches[MinOf(KeyHolders(db, call.key))].request != RequestOf(call) then Some(KeyMismatch) else None
    else if call.ids.None? && call.count.None? && db.partners[call.partner].weeklyHours.None? then Some(NoCount)
    else if call.ids.None? && RuleOf(call).Some? && BadRule(RuleOf(call).value) then Some(BadRuleKey)
    else None
  }

  predicate IsRetry(db: Db, call: AssignCall) {
    Refusal(db, call).None? && KeyHolders(db, call.key) != {}
  }

  /** The first `count` gate-passing candidates, lowest id first. */
  function Chosen(db: Db, now: Time, call: AssignCall, matches: set<Id>): (r: seq<Id>)
    requires call.partner in db.partners
    ensures forall id :: id in r ==> Passes(db, now, id)
  {
    var passing := Passing(db, now, Candidates(db, call, matches));
    var r := FirstN(passing, CountOf(db, call));
    assert forall i :: 0 <= i < |r| ==> r[i] == passing[i];
    r
  }

  /** The tables after a call: a refused call and a retry change nothing. */
  function Assign(db: Db, now: Time, call: AssignCall, matches: set<Id>, batch: Id): Db {
    if Refusal(db, call).Some? || IsRetry(db, call) then db else
    SetOwners(WithBatch(db, now, call, matches, batch), Chosen(db, now, call, matches),
              call.partner, ContactAssigned, "assigned", Some(batch), now)
  }

  /** The batch row is written before any contact moves. */
  function WithBatch(db: Db, now: Time, call: AssignCall, matches: set<Id>, batch: Id): Db
    requires call.partner in db.partners
  {
    var row := Batch(call.partner, call.key, RequestOf(call), CountOf(db, call), |Chosen(db, now, call, matches)|,
                     now + ASSIGNMENT_EXPIRY_DAYS * DAY);
    db.(batches := db.batches[batch := row])
  }

  // Returning leads to the house.

  function DueToExpire(db: Db, now: Time): set<Id> {
    set id | id in db.contacts && db.contacts[id].batch.Some? && db.contacts[id].batch.value in db.batches
             && db.batches[db.contacts[id].batch.value].expiresAt < now
  }

  function WonHoldings(db: Db): set<Id> {
    set id | id in db.contacts && db.contacts[id].stage == Won && db.contacts[id].batch.Some?
  }

  function Reclaim(db: Db, now: Time, partner: Id, reason: string): Db {
    if IsBlank(reason) then db
    else SetOwners(db, Ascending(Holdings(db, partner)), HOUSE, ContactReclaimed, reason, None, now)
  }

  function Expire(db: Db, now: Time): Db {
    SetOwners(db, Ascending(DueToExpire(db, now)), HOUSE, ContactAssignmentExpired, "expired", None, now)
  }

  function TerminateWon(db: Db, now: Time): Db {
    SetOwners(db, Ascending(WonHoldings(db)), HOUSE, ContactReclaimed, "won", None, now)
  }

  predicate IsBlank(text: string) {
    forall i :: 0 <= i < |text| ==> IsSpace(text[i])
  }

  // Suppression.

  function Flagged(c: Contact, scope: Scope): Contact {
    match scope
    case Only(Mail) => c.(doNotMail := true)
    case Only(Sms) => c.(doNotText := true)
    case Only(Voice) => c.(doNotCall := true)
    case All => c.(doNotMail := true, doNotText := true, doNotCall := true)
    case UnknownChannel(_) => c
  }

  function Stones(phone: Option<string>, listKey: Option<Id>, scope: Scope): seq<Tombstone> {
    match scope
    case Only(channel) => [Tombstone(phone, listKey, channel)]
    case All => [Tombstone(phone, listKey, Mail), Tombstone(phone, listKey, Sms), Tombstone(phone, listKey, Voice)]
    case UnknownChannel(_) => []
  }

  function SuppressRefusal(db: Db, s: Suppression): Option<Error> {
    if s.scope.UnknownChannel? then Some(BadChannel)
    else if IsBlank(s.reason) then Some(BadReason)
    else if s.scope == All && s.reason == "do_not_mail" then Some(BadReason)
    else if s.id !in db.contacts then Some(NoContact)
    else None
  }

  function SuppressionEvent(s: Suppression, now: Time): Event {
    Event(Some(s.id), None, Human, if s.scope == All then ContactOptOut else ContactSuppressed, now, None,
          Payload(reason := Some(s.reason)))
  }

  /** The channel's columns, the event and the tombstones. */
  function Flag(db: Db, now: Time, s: Suppression): Db
    requires s.id in db.contacts
  {
    db.(contacts := db.contacts[s.id := Flagged(db.contacts[s.id], s.scope)],
        events := Append(db.events, SuppressionEvent(s, now)),
        tombstones := db.tombstones + Stones(db.contacts[s.id].phone, s.listKey, s.scope))
  }

  predicate BlocksVoice(scope: Scope) {
    scope in {Only(Voice), All}
  }

  function EndReason(scope: Scope): string {
    if scope == Only(Voice) then "do_not_call" else "opt_out"
  }

  /** The writes of a suppression that read this owner before it wrote: a voice-blocking one also ends
      what it takes for a live assignment, in the same transaction. */
  function SuppressAs(db: Db, now: Time, s: Suppression, owner: Id): Db
    requires s.id in db.contacts
  {
    if BlocksVoice(s.scope) && owner != HOUSE
    then SetOwner(Flag(db, now, s), s.id, HOUSE, ContactReclaimed, EndReason(s.scope), None, now)
    else Flag(db, now, s)
  }

  /** A suppression that nothing comes between. */
  function Suppress(db: Db, now: Time, s: Suppression): Db {
    if SuppressRefusal(db, s).Some? then db else SuppressAs(db, now, s, db.contacts[s.id].owner)
  }

  function ClearedEvent(id: Id, source: Source, external: Option<ExternalId>, now: Time): Event {
    Event(Some(id), None, source, ContactSuppressionCleared, now, external, Payload)
  }

  /** clear_suppression on the one clearable channel. */
  function ClearRegistry(db: Db, now: Time, id: Id, source: Source, external: Option<ExternalId>): Db {
    if id !in db.contacts then db else
    db.(contacts := db.contacts[id := db.contacts[id].(dncRegistry := false)],
        events := Append(db.events, ClearedEvent(id, source, external, now)))
  }

  // The scrub.

  /** A contact as _due read it; the owner and the flag may be out of date when it is applied. */
  datatype DueRow = DueRow(id: Id, phone: string, owner: Id, listed: bool)

  predicate IsDue(db: Db, now: Time, id: Id) {
    && id in db.contacts && db.contacts[id].phone.Some? && !db.contacts[id].isSeed
    && AreaCode(db.contacts[id].phone.value) in db.subscriptions
    && (db.contacts[id].dncCheckedAt.None? || db.contacts[id].dncCheckedAt.value < now - DNC_RECHECK_DAYS * DAY)
  }

  function RowOf(db: Db, id: Id): DueRow
    requires id in db.contacts && db.contacts[id].phone.Some?
  {
    DueRow(id, db.contacts[id].phone.value, db.contacts[id].owner, db.contacts[id].dncRegistry)
  }

  /** The due contacts, partner-held ones first, each group in id order, cut to the limit. */
  function DueIds(db: Db, now: Time, limit: Option<nat>): (r: seq<Id>)
    ensures forall id :: id in r ==> IsDue(db, now, id)
  {
    var due := DueHeld(db, now) + DuePool(db, now);
    var first := FirstN(due, limit);
    assert forall i :: 0 <= i < |first| ==> first[i] == due[i];
    first
  }

  function DueHeld(db: Db, now: Time): (r: seq<Id>)
    ensures forall id :: id in r <==> IsDue(db, now, id) && db.contacts[id].owner != HOUSE
  {
    Ascending(set id | id in db.contacts && IsDue(db, now, id) && db.contacts[id].owner != HOUSE)
  }

  function DuePool(db: Db, now: Time): (r: seq<Id>)
    ensures forall id :: id in r <==> IsDue(db, now, id) && db.contacts[id].owner == HOUSE
  {
    Ascending(set id | id in db.contacts && IsDue(db, now, id) && db.contacts[id].owner == HOUSE)
  }

  function DueRows(db: Db, ids: seq<Id>): (r: seq<DueRow>)
    requires forall id :: id in ids ==> id in db.contacts && db.contacts[id].phone.Some?
    ensures |r| == |ids| && forall i :: 0 <= i < |r| ==> r[i] == RowOf(db, ids[i])
  {
    if ids == [] then [] else [RowOf(db, ids[0])] + DueRows(db, ids[1..])
  }

  function Key(id: Id, version: string, snapshot: Option<Id>): ExternalId {
    if snapshot.Some? then DncKey(id, snapshot.value) else DncVersionKey(id, version)
  }

  function CheckedEvent(id: Id, version: string, snapshot: Option<Id>, now: Time): Event {
    Event(Some(id), None, System, ContactDncChecked, now, Some(Key(id, version, snapshot)), Payload(snapshot := snapshot))
  }

  /** One row of the scrub, in its own transaction: the verdict, its event, and the return to the house. */
  function ApplyRow(db: Db, now: Time, row: DueRow, hit: bool, version: string, snapshot: Option<Id>): Db
    requires row.id in db.contacts
  {
    var c := db.contacts[row.id];
    var stamped := db.(
      contacts := db.contacts[row.id := c.(
        dncCheckedAt := Some(now), dncRegistry := hit,
        dncSnapshot := if snapshot.Some? then snapshot else c.dncSnapshot)],
      events := Append(db.events, CheckedEvent(row.id, version, snapshot, now)));
    if hit && row.owner != HOUSE
    then SetOwner(stamped, row.id, HOUSE, ContactReclaimed, "dnc_registry", None, now)
    else stamped
  }

  function ClearKey(id: Id, snapshot: Option<Id>): Option<ExternalId> {
    if snapshot.Some? then Some(DncClearKey(id, snapshot.value)) else None
  }

  /** The delisting writer, in a transaction of its own after the row's. */
  function DelistRow(db: Db, now: Time, row: DueRow, snapshot: Option<Id>): Db {
    ClearRegistry(db, now, row.id, System, ClearKey(row.id, snapshot))
  }

  function ScrubRow(db: Db, now: Time, row: DueRow, hits: set<string>, version: string, snapshot: Option<Id>): (r: Db)
    requires row.id in db.contacts
    ensures r.contacts.Keys == db.contacts.Keys
  {
    var hit := National(row.phone) in hits;
    var applied := ApplyRow(db, now, row, hit, version, snapshot);
    if !hit && row.listed then DelistRow(applied, now, row, snapshot) else applied
  }

  function ScrubRows(db: Db, now: Time, rows: seq<DueRow>, hits: set<string>, version: string, snapshot: Option<Id>): (r: Db)
    requires forall i :: 0 <= i < |rows| ==> rows[i].id in db.contacts
    ensures r.contacts.Keys == db.contacts.Keys
  {
    if rows == [] then db else
    ScrubRow(ScrubRows(db, now, rows[..|rows| - 1], hits, version, snapshot), now, rows[|rows| - 1], hits, version, snapshot)
  }

  /** How many of the rows are on the registry, and how many come off it. */
  function Hits(rows: seq<DueRow>, onRegistry: set<string>): nat {
    if rows == [] then 0 else
    Hits(rows[..|rows| - 1], onRegistry) + if National(rows[|rows| - 1].phone) in onRegistry then 1 else 0
  }

  function Delistings(rows: seq<DueRow>, onRegistry: set<string>): nat {
    if rows == [] then 0 else
    Delistings(rows[..|rows| - 1], onRegistry)
      + if National(rows[|rows| - 1].phone) !in onRegistry && rows[|rows| - 1].listed then 1 else 0
  }

  function RowsIn(rows: seq<DueRow>, areaCode: string): (r: seq<DueRow>)
    ensures forall row :: row in r <==> row in rows && AreaCode(row.phone) == areaCode
  {
    if rows == [] then [] else
    var rest := RowsIn(rows[..|rows| - 1], areaCode);
    assert rows == rows[..|rows| - 1] + [rows[|rows| - 1]];
    if AreaCode(rows[|rows| - 1].phone) == areaCode then rest + [rows[|rows| - 1]] else rest
  }

  // Exporting.

  datatype SheetRow = SheetRow(contact: Id, phone: Option<string>, expiresAt: Time, generatedAt: Time)

  predicate OnSheet(db: Db, partner: Id, id: Id) {
    && id in db.contacts && db.contacts[id].owner == partner
    && db.contacts[id].batch.Some? && db.contacts[id].batch.value in db.batches
    && !db.contacts[id].doNotCall && !db.contacts[id].dncRegistry
  }

  function SheetIds(db: Db, partner: Id): (r: seq<Id>)
    ensures forall id :: id in r <==> OnSheet(db, partner, id)
    ensures IsAscending(r)
  {
    Ascending(set id | id in db.contacts && OnSheet(db, partner, id))
  }

  function SheetRows(db: Db, now: Time, ids: seq<Id>): (r: seq<SheetRow>)
    requires forall id :: id in ids ==> id in db.contacts && db.contacts[id].batch.Some? && db.contacts[id].batch.value in db.batches
    ensures forall row :: row in r ==> row.contact in ids && DncFresh(db.snapshots, db.contacts[row.contact], now)
                                       && row.phone == db.contacts[row.contact].phone
    ensures forall id :: id in ids && DncFresh(db.snapshots, db.contacts[id], now) ==> exists row :: row in r && row.contact == id
  {
    if ids == [] then [] else
    var id := ids[|ids| - 1];
    var rest := SheetRows(db, now, ids[..|ids| - 1]);
    assert ids == ids[..|ids| - 1] + [id];
    var c := db.contacts[id];
    var row := SheetRow(id, c.phone, db.batches[c.batch.value].expiresAt, now);
    assert (rest + [row])[|rest|] == row;
    assert forall r :: r in rest ==> r in rest + [row];
    if DncFresh(db.snapshots, c, now) then rest + [row] else rest
  }

  function Stale(db: Db, now: Time, ids: seq<Id>): (r: seq<Id>)
    ensures forall id :: id in r <==> id in ids && id in db.contacts && !DncFresh(db.snapshots, db.contacts[id], now)
  {
    if ids == [] then [] else
    var id := ids[|ids| - 1];
    var rest := Stale(db, now, ids[..|ids| - 1]);
    assert ids == ids[..|ids| - 1] + [id];
    if id in db.contacts && !DncFresh(db.snapshots, db.contacts[id], now) then rest + [id] else rest
  }

  function Sheet(db: Db, now: Time, partner: Id): seq<SheetRow> {
    SheetRows(db, now, SheetIds(db, partner))
  }

  function Exported(db: Db, now: Time, partner: Id): Db {
    if partner !in db.partners then db
    else db.(partners := db.partners[partner := db.partners[partner].(lastExportAt := Some(now))])
  }

  // Recomputing the stage snapshot.

  predicate IsRehydrated(e: Event, id: Id) {
    e.contact == Some(id) && e.kind != ContactDncChecked
  }

  function Rehydrated(events: seq<Event>, id: Id): (r: seq<Event>)
    ensures forall e :: e in r <==> e in events && IsRehydrated(e, id)
  {
    if events == [] then [] else
    var rest := Rehydrated(events[..|events| - 1], id);
    assert events == events[..|events| - 1] + [events[|events| - 1]];
    if IsRehydrated(events[|events| - 1], id) then rest + [events[|events| - 1]] else rest
  }

  /** The two columns recompute_state owns; every other column is untouched. */
  function Refreshed(c: Contact, events: seq<Event>): Contact {
    c.(stage := DeriveStage(events), addressUndeliverable := IsAddressUndeliverable(events))
  }

  function Recomputed(db: Db, id: Id): Contact
    requires id in db.contacts
  {
    Refreshed(db.contacts[id], Rehydrated(db.events, id))
  }

  /** Every contact, or the one asked for. */
  function Recompute(db: Db, only: Option<Id>): Db {
    db.(contacts := map id | id in db.contacts :: if only.None? || only.value == id then Recomputed(db, id) else db.contacts[id])
  }
}
