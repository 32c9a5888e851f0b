/** What every custody verb keeps. */
module CustodyProofs {
  import opened Types
  import opened Custody

  // The event-confirmed owner follows the log.

  lemma {:induction false} InsertMembers(timeline: seq<Event>, e: Event)
    ensures forall x :: x in Insert(timeline, e) <==> x in timeline || x == e
  {
    if !(timeline == [] || timeline[|timeline| - 1].at <= e.at) {
      var front := timeline[..|timeline| - 1];
      InsertMembers(front, e);
      assert timeline == front + [timeline[|timeline| - 1]];
    }
  }

  lemma {:induction false} TimelineMembers(log: seq<Event>, contact: Id)
    ensures forall x :: x in Timeline(log, contact) <==> x in log && x.contact == Some(contact)
  {
    if log != [] {
      TimelineMembers(log[..|log| - 1], contact);
      InsertMembers(Timeline(log[..|log| - 1], contact), log[|log| - 1]);
      assert log == log[..|log| - 1] + [log[|log| - 1]];
    }
  }

  lemma {:induction false} InsertOwner(timeline: seq<Event>, e: Event)
    requires IsOwnership(e) ==> forall x :: x in timeline && IsOwnership(x) ==> x.at <= e.at
    ensures CurrentOwner(Insert(timeline, e))
            == if IsOwnership(e) then e.payload.newOwner.value else CurrentOwner(timeline)
  {
    if timeline == [] || timeline[|timeline| - 1].at <= e.at {
      assert (timeline + [e])[..|timeline|] == timeline;
    } else {
      var front := timeline[..|timeline| - 1];
      var last := timeline[|timeline| - 1];
      assert timeline == front + [last] && last in timeline;
      InsertOwner(front, e);
      assert (Insert(front, e) + [last])[..|Insert(front, e)|] == Insert(front, e);
    }
  }

  /** One more event moves the owner exactly when it is an ownership event of that contact. */
  lemma {:induction false} OwnerAfter(log: seq<Event>, e: Event, contact: Id)
    requires IsOwnership(e) ==> forall x :: x in log && IsOwnership(x) ==> x.at <= e.at
    ensures CurrentOwner(Timeline(log + [e], contact))
            == if IsOwnership(e) && e.contact == Some(contact) then e.payload.newOwner.value
               else CurrentOwner(Timeline(log, contact))
  {
    assert (log + [e])[..|log|] == log;
    if e.contact == Some(contact) {
      TimelineMembers(log, contact);
      InsertOwner(Timeline(log, contact), e);
    }
  }

  /** CurrentOwner is the owner named by the last ownership event, or the house if there is none. */
  lemma {:induction false} CurrentOwnerIsLast(events: seq<Event>, k: nat)
    requires k <= |events| && forall i :: k <= i < |events| ==> !IsOwnership(events[i])
    requires k > 0 ==> IsOwnership(events[k - 1])
    ensures CurrentOwner(events) == if k == 0 then HOUSE else events[k - 1].payload.newOwner.value
  {
    if |events| > k {
      CurrentOwnerIsLast(events[..|events| - 1], k);
    }
  }

  // The invariant.

  /** An ownership event is complete, not in the future, and an assignment names a batch on file. */
  ghost predicate EventSound(db: Db, now: Time, e: Event) {
    e.kind in OWNERSHIP ==>
      && IsOwnership(e) && e.at <= now
      && e.contact.Some? && e.contact.value in db.contacts
      && (e.kind == ContactAssigned ==> e.payload.batch.Some? && e.payload.batch.value in db.batches)
  }

  ghost predicate LogSound(db: Db, now: Time) {
    forall i :: 0 <= i < |db.events| ==> EventSound(db, now, db.events[i])
  }

  /** The column is what the events say; a partner's lead is in one of that partner's batches. */
  ghost predicate ContactSound(db: Db, id: Id)
    requires id in db.contacts
  {
    var c := db.contacts[id];
    && c.owner == OwnerPerEvents(db, id)
    && (c.owner != HOUSE ==> c.batch.Some?)
    && (c.batch.Some? ==>
          && c.batch.value in db.batches && db.batches[c.batch.value].partner == c.owner
          && id in Members(db.events, c.batch.value)
          && c.phone.Some?)
  }

  ghost predicate KeysUnique(db: Db) {
    forall a, b :: a in db.batches && b in db.batches && db.batches[a].key == db.batches[b].key ==> a == b
  }

  ghost predicate CustodyInv(db: Db, now: Time) {
    && LogSound(db, now)
    && KeysUnique(db)
    && forall id :: id in db.contacts ==> ContactSound(db, id)
  }

  /** Batches are never altered or dropped, and neither is their recorded membership. */
  ghost predicate BatchesKept(db: Db, db': Db) {
    forall b :: b in db.batches ==>
      b in db'.batches && db'.batches[b] == db.batches[b] && Members(db'.events, b) == Members(db.events, b)
  }

  ghost predicate Keeps(db: Db, db': Db, now: Time) {
    CustodyInv(db', now) && BatchesKept(db, db')
  }

  /** No partner holds a number that must not be called. */
  ghost predicate NoneForbidden(db: Db) {
    forall id :: id in db.contacts && (db.contacts[id].doNotCall || db.contacts[id].dncRegistry) ==>
      db.contacts[id].owner == HOUSE
  }

  lemma {:induction false} MembersAfter(log: seq<Event>, e: Event, batch: Id)
    ensures Members(log + [e], batch)
            == Members(log, batch) + if e.kind == ContactAssigned && e.payload.batch == Some(batch) && e.contact.Some?
                                     then {e.contact.value} else {}
  {
    var more := log + [e];
    assert more[|log|] == e;
    assert forall i :: 0 <= i < |log| ==> more[i] == log[i];
  }

  /** Custody reads nothing of a contact but these three columns. */
  ghost predicate SameCustody(a: Contact, b: Contact) {
    a.owner == b.owner && a.batch == b.batch && a.phone == b.phone
  }

  /** A step that leaves custody alone: same holders, same batches, at most one event, not an ownership event. */
  ghost predicate Aside(db: Db, db': Db, e: Event) {
    && db'.contacts.Keys == db.contacts.Keys
    && (forall id :: id in db.contacts ==> SameCustody(db.contacts[id], db'.contacts[id]))
    && db'.batches == db.batches
    && e.kind !in OWNERSHIP
    && (db'.events == db.events || db'.events == db.events + [e])
  }

  lemma {:induction false} AsideKeeps(db: Db, db': Db, e: Event, now: Time)
    requires CustodyInv(db, now) && Aside(db, db', e)
    ensures Keeps(db, db', now)
  {
    forall b: Id ensures Members(db'.events, b) == Members(db.events, b) {
      MembersAfter(db.events, e, b);
    }
    forall id | id in db'.contacts ensures ContactSound(db', id) {
      assert ContactSound(db, id);
      OwnerAfter(db.events, e, id);
    }
  }

  lemma {:induction false} TimePasses(db: Db, now: Time, later: Time)
    requires CustodyInv(db, now) && now <= later
    ensures CustodyInv(db, later)
  {
  }

  /** The contract set_owner's callers keep: an assignment goes into one of the new owner's batches,
      a return carries no batch and goes to the house. */
  ghost predicate ValidMove(db: Db, id: Id, owner: Id, kind: EventType, batch: Option<Id>) {
    && id in db.contacts && kind in OWNERSHIP
    && match batch
       case None => owner == HOUSE && kind != ContactAssigned
       case Some(b) => kind == ContactAssigned && b in db.batches && db.batches[b].partner == owner
                       && db.contacts[id].phone.Some?
  }

  lemma {:induction false} SetOwnerContact(db: Db, id: Id, owner: Id, kind: EventType, reason: string, batch: Option<Id>, now: Time, x: Id)
    requires CustodyInv(db, now) && ValidMove(db, id, owner, kind, batch) && x in db.contacts
    ensures ContactSound(SetOwner(db, id, owner, kind, reason, batch, now), x)
  {
    var e := OwnershipEvent(id, owner, kind, reason, batch, now);
    var db' := SetOwner(db, id, owner, kind, reason, batch, now);
    assert db'.events == db.events + [e];
    assert ContactSound(db, x);
    forall y | y in db.events && IsOwnership(y) ensures y.at <= now {
      var i :| 0 <= i < |db.events| && db.events[i] == y;
      assert EventSound(db, now, db.events[i]);
    }
    OwnerAfter(db.events, e, x);
    if db'.contacts[x].batch.Some? {
      MembersAfter(db.events, e, db'.contacts[x].batch.value);
    }
  }

  lemma {:induction false} SetOwnerLog(db: Db, id: Id, owner: Id, kind: EventType, reason: string, batch: Option<Id>, now: Time)
    requires CustodyInv(db, now) && ValidMove(db, id, owner, kind, batch)
    ensures LogSound(SetOwner(db, id, owner, kind, reason, batch, now), now)
  {
    var db' := SetOwner(db, id, owner, kind, reason, batch, now);
    assert db'.events == db.events + [OwnershipEvent(id, owner, kind, reason, batch, now)];
    forall i | 0 <= i < |db'.events| ensures EventSound(db', now, db'.events[i]) {
      if i < |db.events| {
        assert EventSound(db, now, db.events[i]);
      }
    }
  }

  lemma {:induction false} SetOwnerKeeps(db: Db, id: Id, owner: Id, kind: EventType, reason: string, batch: Option<Id>, now: Time)
    requires CustodyInv(db, now) && ValidMove(db, id, owner, kind, batch)
    ensures CustodyInv(SetOwner(db, id, owner, kind, reason, batch, now), now)
    ensures forall b :: b in db.batches && batch != Some(b) ==>
              Members(SetOwner(db, id, owner, kind, reason, batch, now).events, b) == Members(db.events, b)
  {
    SetOwnerLog(db, id, owner, kind, reason, batch, now);
    forall x | x in db.contacts ensures ContactSound(SetOwner(db, id, owner, kind, reason, batch, now), x) {
      SetOwnerContact(db, id, owner, kind, reason, batch, now, x);
    }
    forall b: Id ensures batch != Some(b) ==>
                       Members(SetOwner(db, id, owner, kind, reason, batch, now).events, b) == Members(db.events, b)
    {
      MembersAfter(db.events, OwnershipEvent(id, owner, kind, reason, batch, now), b);
    }
  }

  lemma {:induction false} SetOwnersKeep(db: Db, ids: seq<Id>, owner: Id, kind: EventType, reason: string, batch: Option<Id>, now: Time)
    requires CustodyInv(db, now)
    requires forall id :: id in ids ==> id in db.contacts && ValidMove(db, id, owner, kind, batch)
    ensures CustodyInv(SetOwners(db, ids, owner, kind, reason, batch, now), now)
    ensures forall b :: b in db.batches && batch != Some(b) ==>
              Members(SetOwners(db, ids, owner, kind, reason, batch, now).events, b) == Members(db.events, b)
  {
    if ids != [] {
      var front, last := ids[..|ids| - 1], ids[|ids| - 1];
      assert ids == front + [last];
      SetOwnersKeep(db, front, owner, kind, reason, batch, now);
      var mid := SetOwners(db, front, owner, kind, reason, batch, now);
      SetOwnersMoves(db, front, owner, kind, reason, batch, now);
      SetOwnersLogs(db, front, owner, kind, reason, batch, now);
      assert ValidMove(db, last, owner, kind, batch);
      SetOwnerKeeps(mid, last, owner, kind, reason, batch, now);
    }
  }

  // The verbs.

  lemma {:induction false} ReturnsKeep(db: Db, now: Time, ids: seq<Id>, kind: EventType, reason: string)
    requires CustodyInv(db, now) && kind in {ContactReclaimed, ContactAssignmentExpired}
    requires forall id :: id in ids ==> id in db.contacts
    ensures Keeps(db, SetOwners(db, ids, HOUSE, kind, reason, None, now), now)
    ensures NoneForbidden(db) ==> NoneForbidden(SetOwners(db, ids, HOUSE, kind, reason, None, now))
  {
    SetOwnersKeep(db, ids, HOUSE, kind, reason, None, now);
    SetOwnersLogs(db, ids, HOUSE, kind, reason, None, now);
    SetOwnersMoves(db, ids, HOUSE, kind, reason, None, now);
  }

  lemma {:induction false} ReclaimKeeps(db: Db, now: Time, partner: Id, reason: string)
    requires CustodyInv(db, now)
    ensures Keeps(db, Reclaim(db, now, partner, reason), now)
    ensures NoneForbidden(db) ==> NoneForbidden(Reclaim(db, now, partner, reason))
  {
    ReturnsKeep(db, now, Ascending(Holdings(db, partner)), ContactReclaimed, reason);
  }

  lemma {:induction false} ExpireKeeps(db: Db, now: Time)
    requires CustodyInv(db, now)
    ensures Keeps(db, Expire(db, now), now)
    ensures NoneForbidden(db) ==> NoneForbidden(Expire(db, now))
  {
    ReturnsKeep(db, now, Ascending(DueToExpire(db, now)), ContactAssignmentExpired, "expired");
  }

  lemma {:induction false} TerminateWonKeeps(db: Db, now: Time)
    requires CustodyInv(db, now)
    ensures Keeps(db, TerminateWon(db, now), now)
    ensures NoneForbidden(db) ==> NoneForbidden(TerminateWon(db, now))
  {
    ReturnsKeep(db, now, Ascending(WonHoldings(db)), ContactReclaimed, "won");
  }

  lemma {:induction false} NewBatchKeeps(db: Db, now: Time, batch: Id, row: Batch)
    requires CustodyInv(db, now) && batch !in db.batches && KeyHolders(db, row.key) == {}
    ensures CustodyInv(db.(batches := db.batches[batch := row]), now)
  {
    var db' := db.(batches := db.batches[batch := row]);
    forall id | id in db'.contacts ensures ContactSound(db', id) {
      assert ContactSound(db, id);
    }
    forall b | b in db.batches ensures db.batches[b].key != row.key {
      assert b !in KeyHolders(db, row.key);
    }
  }

  /** A gate-passing lead is callable, unheld and inside the window. */
  lemma {:induction false} GateMeaning(db: Db, now: Time, c: Contact)
    ensures Gate(db, now, c).None? <==>
            && !c.isSeed && c.phone.Some? && c.owner == HOUSE && c.batch.None?
            && c.stage in {Prospect, InSequence, Lost}
            && !c.doNotCall && !c.dncRegistry
            && !HasVoiceTombstone(db, c.phone.value)
            && AreaCode(c.phone.value) in db.subscriptions
            && DncFresh(db.snapshots, c, now)
  {
  }

  lemma {:induction false} AssignKeeps(db: Db, now: Time, call: AssignCall, matches: set<Id>, batch: Id)
    requires CustodyInv(db, now) && batch !in db.batches
    ensures Keeps(db, Assign(db, now, call, matches, batch), now)
  {
    if Refusal(db, call).None? && !IsRetry(db, call) {
      var ready := WithBatch(db, now, call, matches, batch);
      var chosen := Chosen(db, now, call, matches);
      NewBatchKeeps(db, now, batch, ready.batches[batch]);
      forall id | id in chosen ensures id in ready.contacts && ValidMove(ready, id, call.partner, ContactAssigned, Some(batch)) {
        GateMeaning(db, now, db.contacts[id]);
      }
      SetOwnersKeep(ready, chosen, call.partner, ContactAssigned, "assigned", Some(batch), now);
      SetOwnersLogs(ready, chosen, call.partner, ContactAssigned, "assigned", Some(batch), now);
    }
  }

  lemma {:induction false} AssignForbidsNothing(db: Db, now: Time, call: AssignCall, matches: set<Id>, batch: Id)
    requires NoneForbidden(db)
    ensures NoneForbidden(Assign(db, now, call, matches, batch))
  {
    if Refusal(db, call).None? && !IsRetry(db, call) {
      var chosen := Chosen(db, now, call, matches);
      SetOwnersMoves(WithBatch(db, now, call, matches, batch), chosen, call.partner, ContactAssigned, "assigned", Some(batch), now);
      forall id | id in chosen ensures !db.contacts[id].doNotCall && !db.contacts[id].dncRegistry {
        GateMeaning(db, now, db.contacts[id]);
      }
    }
  }

  lemma {:induction false} ContactWriteKeeps(db: Db, id: Id, c: Contact, e: Event, now: Time)
    requires CustodyInv(db, now) && id in db.contacts && SameCustody(db.contacts[id], c) && e.kind !in OWNERSHIP
    ensures Keeps(db, db.(contacts := db.contacts[id := c], events := Append(db.events, e)), now)
  {
    AsideKeeps(db, db.(contacts := db.contacts[id := c], events := Append(db.events, e)), e, now);
  }

  lemma {:induction false} SuppressAsKeeps(db: Db, now: Time, s: Suppression, owner: Id)
    requires CustodyInv(db, now) && s.id in db.contacts
    ensures Keeps(db, SuppressAs(db, now, s, owner), now)
  {
    FlagKeeps(db, now, s);
    if BlocksVoice(s.scope) && owner != HOUSE {
      SetOwnerKeeps(Flag(db, now, s), s.id, HOUSE, ContactReclaimed, EndReason(s.scope), None, now);
    }
  }

  lemma {:induction false} FlagKeeps(db: Db, now: Time, s: Suppression)
    requires CustodyInv(db, now) && s.id in db.contacts
    ensures Keeps(db, Flag(db, now, s), now)
  {
    FlagIsAside(db, now, s);
    AsideKeeps(db, Flag(db, now, s), SuppressionEvent(s, now), now);
  }

  lemma {:induction false} FlagIsAside(db: Db, now: Time, s: Suppression)
    requires s.id in db.contacts
    ensures Aside(db, Flag(db, now, s), SuppressionEvent(s, now))
  {
    FlaggedIsInCustody(db.contacts[s.id], s.scope);
    var later := Flag(db, now, s);
    assert forall id :: id in db.contacts && id != s.id ==> later.contacts[id] == db.contacts[id];
  }

  lemma {:induction false} FlaggedIsInCustody(c: Contact, scope: Scope)
    ensures SameCustody(c, Flagged(c, scope))
  {
  }

  /** A suppression leaves a do-not-call number with a partner exactly when it blocks the voice channel
      and read the house as the owner of a contact that has since been assigned. */
  lemma {:induction false} SuppressAsForbids(db: Db, now: Time, s: Suppression, owner: Id)
    requires NoneForbidden(db) && s.id in db.contacts
    ensures NoneForbidden(SuppressAs(db, now, s, owner))
            <==> !(BlocksVoice(s.scope) && owner == HOUSE && db.contacts[s.id].owner != HOUSE)
  {
    FlagForbids(db, now, s);
    if BlocksVoice(s.scope) && owner != HOUSE {
      var flagged, later := Flag(db, now, s), SuppressAs(db, now, s, owner);
      assert forall id :: id in db.contacts && id != s.id ==> later.contacts[id] == db.contacts[id];
      assert later.contacts[s.id].owner == HOUSE;
    }
  }

  /** Flagging alone breaks it exactly where it blocks the voice channel of a held lead. */
  lemma {:induction false} FlagForbids(db: Db, now: Time, s: Suppression)
    requires NoneForbidden(db) && s.id in db.contacts
    ensures NoneForbidden(Flag(db, now, s)) <==> !(BlocksVoice(s.scope) && db.contacts[s.id].owner != HOUSE)
  {
    var later := Flag(db, now, s);
    FlaggedBlocks(db.contacts[s.id], s.scope);
    assert later.contacts[s.id] == Flagged(db.contacts[s.id], s.scope);
    assert forall id :: id in db.contacts && id != s.id ==> later.contacts[id] == db.contacts[id];
  }

  lemma {:induction false} FlaggedBlocks(c: Contact, scope: Scope)
    ensures var later := Flagged(c, scope);
            later.doNotCall == (c.doNotCall || BlocksVoice(scope)) && later.dncRegistry == c.dncRegistry && later.owner == c.owner
  {
  }

  lemma {:induction false} ClearKeeps(db: Db, now: Time, id: Id, source: Source, external: Option<ExternalId>)
    requires CustodyInv(db, now)
    ensures Keeps(db, ClearRegistry(db, now, id, source, external), now)
    ensures NoneForbidden(db) ==> NoneForbidden(ClearRegistry(db, now, id, source, external))
  {
    if id in db.contacts {
      ContactWriteKeeps(db, id, db.contacts[id].(dncRegistry := false), ClearedEvent(id, source, external, now), now);
    }
  }

  /** Applying a scrub row keeps custody whatever owner the row remembers. It keeps the forbidden
      numbers home when the row remembers a current partner as a partner. */
  lemma {:induction false} ApplyRowKeeps(db: Db, now: Time, row: DueRow, hit: bool, version: string, snapshot: Option<Id>)
    requires CustodyInv(db, now) && row.id in db.contacts
    ensures Keeps(db, ApplyRow(db, now, row, hit, version, snapshot), now)
    ensures NoneForbidden(db) && (db.contacts[row.id].owner != HOUSE ==> row.owner != HOUSE) ==>
              NoneForbidden(ApplyRow(db, now, row, hit, version, snapshot))
  {
    var c := db.contacts[row.id];
    var stamp := c.(dncCheckedAt := Some(now), dncRegistry := hit,
                    dncSnapshot := if snapshot.Some? then snapshot else c.dncSnapshot);
    var e := CheckedEvent(row.id, version, snapshot, now);
    ContactWriteKeeps(db, row.id, stamp, e, now);
    var stamped := db.(contacts := db.contacts[row.id := stamp], events := Append(db.events, e));
    if hit && row.owner != HOUSE {
      SetOwnerKeeps(stamped, row.id, HOUSE, ContactReclaimed, "dnc_registry", None, now);
    }
  }

  lemma {:induction false} RecomputeKeeps(db: Db, now: Time, only: Option<Id>)
    requires CustodyInv(db, now)
    ensures Keeps(db, Recompute(db, only), now)
    ensures NoneForbidden(db) ==> NoneForbidden(Recompute(db, only))
  {
    forall id | id in Recompute(db, only).contacts ensures ContactSound(Recompute(db, only), id) {
      assert ContactSound(db, id);
    }
  }

  lemma {:induction false} ExportKeeps(db: Db, now: Time, partner: Id)
    requires CustodyInv(db, now)
    ensures Keeps(db, Exported(db, now, partner), now)
  {
    forall id | id in Exported(db, now, partner).contacts ensures ContactSound(Exported(db, now, partner), id) {
      assert ContactSound(db, id);
    }
  }

  // What a call to assign_batch does, and what a retry of it returns.

  ghost predicate IsNewBatch(db: Db, call: AssignCall) {
    Refusal(db, call).None? && !IsRetry(db, call)
  }

  function ToSet(ids: seq<Id>): set<Id> {
    set id | id in ids
  }

  /** The candidates split three ways: the leads, which are the first `count` that pass in id order;
      those with exactly one shortfall cause; and the passing surplus, every one after every lead. */
  lemma {:induction false} AssignSplits(db: Db, now: Time, call: AssignCall, matches: set<Id>)
    requires IsNewBatch(db, call)
    ensures var candidates := Candidates(db, call, matches);
            var leads := Chosen(db, now, call, matches);
            && (forall id :: id in leads ==> id in candidates && Passes(db, now, id))
            && (forall id, lead :: id in candidates && Passes(db, now, id) && id !in leads && lead in leads ==> lead < id)
            && (forall id :: id in candidates && id !in leads ==>
                  Passes(db, now, id) != exists cause :: Fails(db, now, cause, id))
            && (forall id, one, other :: Fails(db, now, one, id) && Fails(db, now, other, id) ==> one == other)
            && (CountOf(db, call).None? ==> forall id :: id in candidates && Passes(db, now, id) ==> id in leads)
            && (CountOf(db, call).Some? ==>
                  |leads| <= (if CountOf(db, call).value < 0 then 0 else CountOf(db, call).value)
                  && (|leads| < CountOf(db, call).value ==>
                        forall id :: id in candidates && Passes(db, now, id) ==> id in leads))
  {
    var candidates := Candidates(db, call, matches);
    var passing := Passing(db, now, candidates);
    var leads := Chosen(db, now, call, matches);
    PassingAscends(db, now, candidates);
    assert forall i :: 0 <= i < |leads| ==> leads[i] == passing[i];
    forall id, lead | id in candidates && Passes(db, now, id) && id !in leads && lead in leads ensures lead < id {
      assert id in passing;
      var i :| 0 <= i < |passing| && passing[i] == id;
      var j :| 0 <= j < |leads| && leads[j] == lead;
      assert i < |leads| ==> leads[i] == id;
    }
    forall id | id in candidates && !Passes(db, now, id) ensures exists cause :: Fails(db, now, cause, id) {
      assert Fails(db, now, Gate(db, now, db.contacts[id]).value, id);
    }
    if |leads| == |passing| {
      assert leads == passing;
    }
  }

  lemma {:induction false} PassingAscends(db: Db, now: Time, ids: seq<Id>)
    requires IsAscending(ids)
    ensures IsAscending(Passing(db, now, ids))
  {
    if ids != [] {
      var front, last := ids[..|ids| - 1], ids[|ids| - 1];
      PassingAscends(db, now, front);
      var rest := Passing(db, now, front);
      forall i | 0 <= i < |rest| ensures rest[i] < last {
        assert rest[i] in rest;
        var j :| 0 <= j < |front| && front[j] == rest[i];
        assert ids[j] == rest[i];
      }
    }
  }

  lemma {:induction false} EventsOfMembers(ids: seq<Id>, owner: Id, reason: string, batch: Id, now: Time)
    ensures Members(OwnershipEvents(ids, owner, ContactAssigned, reason, Some(batch), now), batch) == ToSet(ids)
  {
    if ids != [] {
      var front := ids[..|ids| - 1];
      assert ids == front + [ids[|ids| - 1]];
      EventsOfMembers(front, owner, reason, batch, now);
      MembersAfter(OwnershipEvents(front, owner, ContactAssigned, reason, Some(batch), now),
                   OwnershipEvent(ids[|ids| - 1], owner, ContactAssigned, reason, Some(batch), now), batch);
    }
  }

  lemma {:induction false} MembersConcat(a: seq<Event>, b: seq<Event>, batch: Id)
    ensures Members(a + b, batch) == Members(a, batch) + Members(b, batch)
  {
    if b == [] {
      assert a + b == a;
    } else {
      var front, last := b[..|b| - 1], b[|b| - 1];
      assert a + b == (a + front) + [last] && b == front + [last];
      MembersConcat(a, front, batch);
      MembersAfter(a + front, last, batch);
      MembersAfter(front, last, batch);
    }
  }

  /** A new batch's recorded membership, and what it holds, is exactly the leads it was given;
      every other contact is untouched. */
  lemma {:induction false} AssignMembership(db: Db, now: Time, call: AssignCall, matches: set<Id>, batch: Id)
    requires CustodyInv(db, now) && batch !in db.batches && IsNewBatch(db, call)
    ensures var after := Assign(db, now, call, matches, batch);
            var leads := ToSet(Chosen(db, now, call, matches));
            && Members(after.events, batch) == leads == Holding(after, batch)
            && (forall id :: id in db.contacts && id !in leads ==> after.contacts[id] == db.contacts[id])
            && (forall id :: id in leads ==> after.contacts[id] == db.contacts[id].(owner := call.partner, batch := Some(batch)))
  {
    var leads := Chosen(db, now, call, matches);
    var ready := WithBatch(db, now, call, matches, batch);
    SetOwnersMoves(ready, leads, call.partner, ContactAssigned, "assigned", Some(batch), now);
    SetOwnersLogs(ready, leads, call.partner, ContactAssigned, "assigned", Some(batch), now);
    MembersConcat(db.events, OwnershipEvents(leads, call.partner, ContactAssigned, "assigned", Some(batch), now), batch);
    EventsOfMembers(leads, call.partner, "assigned", batch, now);
    NewBatchIsEmpty(db, now, batch);
  }

  /** A batch that does not exist yet has no members and holds nobody. */
  lemma {:induction false} NewBatchIsEmpty(db: Db, now: Time, batch: Id)
    requires CustodyInv(db, now) && batch !in db.batches
    ensures Members(db.events, batch) == {} && forall id :: id in db.contacts ==> db.contacts[id].batch != Some(batch)
  {
    forall i | 0 <= i < |db.events| && db.events[i].kind == ContactAssigned && db.events[i].payload.batch.Some?
      ensures db.events[i].payload.batch.value in db.batches
    {
      assert EventSound(db, now, db.events[i]);
    }
    forall id | id in db.contacts ensures db.contacts[id].batch != Some(batch) {
      assert ContactSound(db, id);
    }
  }

  /** A receipt is the original membership, split without overlap into held and released. */
  lemma {:induction false} ReceiptIsMembership(db: Db, now: Time, batch: Id)
    requires CustodyInv(db, now)
    ensures var r := RetryReceipt(db, batch);
            && ToSet(r.held) !! ToSet(r.released)
            && ToSet(r.held) + ToSet(r.released) == Members(db.events, batch)
            && ToSet(r.held) == Holding(db, batch)
  {
    HoldingAreMembers(db, now, batch);
    AscendingSet(Holding(db, batch));
    AscendingSet(Members(db.events, batch) - Holding(db, batch));
  }

  lemma {:induction false} HoldingAreMembers(db: Db, now: Time, batch: Id)
    requires CustodyInv(db, now)
    ensures Holding(db, batch) <= Members(db.events, batch)
  {
    forall id | id in Holding(db, batch) ensures id in Members(db.events, batch) {
      assert ContactSound(db, id);
    }
  }

  lemma {:induction false} AscendingSet(s: set<Id>)
    ensures ToSet(Ascending(s)) == s
  {
  }

  // One step of each loop over rows.

  lemma {:induction false} SetOwnersStep(db: Db, ids: seq<Id>, i: nat, owner: Id, kind: EventType, reason: string, batch: Option<Id>, now: Time)
    requires i < |ids| && forall id :: id in ids ==> id in db.contacts
    ensures SetOwners(db, ids[..i + 1], owner, kind, reason, batch, now)
            == SetOwner(SetOwners(db, ids[..i], owner, kind, reason, batch, now), ids[i], owner, kind, reason, batch, now)
  {
    assert ids[..i + 1][..i] == ids[..i];
  }

  lemma {:induction false} PassingStep(db: Db, now: Time, ids: seq<Id>, i: nat)
    requires i < |ids|
    ensures Passing(db, now, ids[..i + 1])
            == Passing(db, now, ids[..i]) + if Passes(db, now, ids[i]) then [ids[i]] else []
  {
    assert ids[..i + 1][..i] == ids[..i];
  }

  lemma {:induction false} FailingStep(db: Db, now: Time, ids: seq<Id>, i: nat, cause: Cause)
    requires i < |ids|
    ensures Failing(db, now, cause, ids[..i + 1])
            == Failing(db, now, cause, ids[..i]) + if Fails(db, now, cause, ids[i]) then [ids[i]] else []
  {
    assert ids[..i + 1][..i] == ids[..i];
  }

  /** Recording one row: a failing row joins its one cause's list, and no other list changes. */
  lemma {:induction false} ShortfallStep(db: Db, now: Time, ids: seq<Id>, i: nat, shortfall: map<Cause, seq<Id>>)
    requires i < |ids| && ids[i] in db.contacts && IsShortfall(db, now, ids[..i], shortfall)
    requires forall cause :: cause !in shortfall ==> Failing(db, now, cause, ids[..i]) == []
    ensures var next := NextShortfall(shortfall, Gate(db, now, db.contacts[ids[i]]), ids[i]);
            && IsShortfall(db, now, ids[..i + 1], next)
            && forall cause :: cause !in next ==> Failing(db, now, cause, ids[..i + 1]) == []
  {
    var next := NextShortfall(shortfall, Gate(db, now, db.contacts[ids[i]]), ids[i]);
    forall cause ensures cause in next ==> next[cause] == Failing(db, now, cause, ids[..i + 1])
      ensures cause !in next ==> Failing(db, now, cause, ids[..i + 1]) == []
    {
      FailingStep(db, now, ids, i, cause);
    }
    assert ids[..i + 1] == ids[..i] + [ids[i]];
  }

  /** What the gating loop has built over some candidates. */
  ghost predicate Gated(db: Db, now: Time, ids: seq<Id>, count: Option<int>, leads: seq<Id>, shortfall: map<Cause, seq<Id>>) {
    && leads == FirstN(Passing(db, now, ids), count)
    && IsShortfall(db, now, ids, shortfall)
    && forall cause :: cause !in shortfall ==> Failing(db, now, cause, ids) == []
  }

  function NextLeads(leads: seq<Id>, count: Option<int>, cause: Option<Cause>, id: Id): seq<Id> {
    if cause.None? && (count.None? || |leads| < count.value) then leads + [id] else leads
  }

  datatype Gating = Gating(leads: seq<Id>, shortfall: map<Cause, seq<Id>>)

  /** The gating loop as a fold. */
  function GateAll(db: Db, now: Time, ids: seq<Id>, count: Option<int>): Gating
    requires forall i :: 0 <= i < |ids| ==> ids[i] in db.contacts
  {
    if ids == [] then Gating([], map[]) else
    var before := GateAll(db, now, ids[..|ids| - 1], count);
    var id := ids[|ids| - 1];
    var cause := Gate(db, now, db.contacts[id]);
    Gating(NextLeads(before.leads, count, cause, id), NextShortfall(before.shortfall, cause, id))
  }

  lemma {:induction false} GateAllIsGated(db: Db, now: Time, ids: seq<Id>, count: Option<int>)
    requires forall i :: 0 <= i < |ids| ==> ids[i] in db.contacts
    ensures Gated(db, now, ids, count, GateAll(db, now, ids, count).leads, GateAll(db, now, ids, count).shortfall)
  {
    if ids != [] {
      var front := ids[..|ids| - 1];
      GateAllIsGated(db, now, front, count);
      GateStep(db, now, ids, count, GateAll(db, now, front, count));
    }
  }

  lemma {:induction false} GateStep(db: Db, now: Time, ids: seq<Id>, count: Option<int>, before: Gating)
    requires ids != [] && ids[|ids| - 1] in db.contacts
    requires Gated(db, now, ids[..|ids| - 1], count, before.leads, before.shortfall)
    ensures var cause := Gate(db, now, db.contacts[ids[|ids| - 1]]);
            Gated(db, now, ids, count, NextLeads(before.leads, count, cause, ids[|ids| - 1]),
                  NextShortfall(before.shortfall, cause, ids[|ids| - 1]))
  {
    var i := |ids| - 1;
    assert ids[..i + 1] == ids;
    PassingStep(db, now, ids, i);
    ShortfallStep(db, now, ids, i, before.shortfall);
    FirstNSnoc(Passing(db, now, ids[..i]), ids[i], count);
  }

  lemma {:induction false} FirstNSnoc(s: seq<Id>, id: Id, count: Option<int>)
    ensures FirstN(s + [id], count)
            == if count.None? || |FirstN(s, count)| < count.value then FirstN(s, count) + [id] else FirstN(s, count)
  {
  }

  function NextShortfall(shortfall: map<Cause, seq<Id>>, cause: Option<Cause>, id: Id): map<Cause, seq<Id>> {
    if cause.None? then shortfall
    else shortfall[cause.value := (if cause.value in shortfall then shortfall[cause.value] else []) + [id]]
  }

  lemma {:induction false} ScrubRowsStep(db: Db, now: Time, rows: seq<DueRow>, i: nat, hits: set<string>, version: string, snapshot: Option<Id>,
                                         before: Db, after: Db)
    requires i < |rows| && forall k :: 0 <= k < |rows| ==> rows[k].id in db.contacts
    requires before == ScrubRows(db, now, rows[..i], hits, version, snapshot)
    requires after == ScrubRow(before, now, rows[i], hits, version, snapshot)
    ensures after == ScrubRows(db, now, rows[..i + 1], hits, version, snapshot)
  {
    assert rows[..i + 1][..i] == rows[..i];
  }

  lemma {:induction false} StaleStep(db: Db, now: Time, ids: seq<Id>, i: nat)
    requires i < |ids|
    ensures Stale(db, now, ids[..i + 1]) == Stale(db, now, ids[..i])
              + if ids[i] in db.contacts && !DncFresh(db.snapshots, db.contacts[ids[i]], now) then [ids[i]] else []
  {
    assert ids[..i + 1][..i] == ids[..i];
  }

  ghost predicate Sheetable(db: Db, ids: seq<Id>) {
    forall id :: id in ids ==> id in db.contacts && db.contacts[id].batch.Some? && db.contacts[id].batch.value in db.batches
  }

  lemma {:induction false} SheetRowsStep(db: Db, now: Time, ids: seq<Id>, i: nat)
    requires i < |ids| && Sheetable(db, ids)
    ensures Sheetable(db, ids[..i]) && Sheetable(db, ids[..i + 1])
    ensures SheetRows(db, now, ids[..i + 1]) == SheetRows(db, now, ids[..i])
              + if DncFresh(db.snapshots, db.contacts[ids[i]], now)
                then [SheetRow(ids[i], db.contacts[ids[i]].phone, db.batches[db.contacts[ids[i]].batch.value].expiresAt, now)] else []
  {
    assert ids[..i + 1][..i] == ids[..i];
  }
}
