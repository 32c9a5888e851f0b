/** What one night guarantees: recompute, then expiry, then won-termination (jobs/nightly.py). */
module Nightly {
  import opened Types
  import opened Derivation
  import opened Custody
  import opened CustodyProofs
  import opened CustodyColumns
  import opened Spine

  /** The custody steps of the night, in their load-bearing order; the clock runs between them. */
  function Night(db: Db, expiryAt: Time, wonAt: Time): Db {
    TerminateWon(Expire(Recompute(db, None), expiryAt), wonAt)
  }

  method RunNight(tables: Tables, expiryAt: Time, wonAt: Time)
    modifies tables
    ensures tables.Value() == Night(old(tables.Value()), expiryAt, wonAt)
  {
    var _ := tables.RecomputeState(None);
    var _ := tables.RunExpiryStep(expiryAt);
    var _ := tables.RunWonTerminationStep(wonAt);
  }

  /** How many ownership events of a contact a stretch of the log holds. */
  function OwnershipCount(events: seq<Event>, id: Id): nat {
    if events == [] then 0 else
    OwnershipCount(events[..|events| - 1], id)
      + if IsOwnership(events[|events| - 1]) && events[|events| - 1].contact == Some(id) then 1 else 0
  }

  lemma {:induction false} OwnershipCountConcat(a: seq<Event>, b: seq<Event>, id: Id)
    ensures OwnershipCount(a + b, id) == OwnershipCount(a, id) + OwnershipCount(b, id)
  {
    if b == [] {
      assert a + b == a;
    } else {
      assert (a + b)[..|a + b| - 1] == a + b[..|b| - 1];
      OwnershipCountConcat(a, b[..|b| - 1], id);
    }
  }

  /** A list of moves over distinct contacts logs one event each. */
  lemma {:induction false} OneEventEach(ids: seq<Id>, kind: EventType, reason: string, now: Time, id: Id)
    requires IsAscending(ids) && kind in OWNERSHIP
    ensures OwnershipCount(OwnershipEvents(ids, HOUSE, kind, reason, None, now), id) == if id in ids then 1 else 0
  {
    if ids != [] {
      var front, last := ids[..|ids| - 1], ids[|ids| - 1];
      assert ids == front + [last];
      OneEventEach(front, kind, reason, now, id);
      var events := OwnershipEvents(ids, HOUSE, kind, reason, None, now);
      assert events[..|events| - 1] == OwnershipEvents(front, HOUSE, kind, reason, None, now);
      if id == last {
        assert id !in front;
      }
    }
  }

  /** Ownership events change no stage. */
  lemma {:induction false} StageIgnoresOwnership(log: seq<Event>, more: seq<Event>, id: Id)
    requires forall i :: 0 <= i < |more| ==> more[i].kind in OWNERSHIP
    ensures DeriveStage(Rehydrated(log + more, id)) == DeriveStage(Rehydrated(log, id))
  {
    var a, b := Rehydrated(log + more, id), Rehydrated(log, id);
    assert forall e :: e in log + more <==> e in log || e in more;
    assert forall e :: e in more ==> e.kind in OWNERSHIP;
    StageReadsJudgedEventsOnly(a, b);
  }

  function ExpiredEvents(db: Db, now: Time): seq<Event> {
    OwnershipEvents(Ascending(DueToExpire(db, now)), HOUSE, ContactAssignmentExpired, "expired", None, now)
  }

  function WonEvents(db: Db, now: Time): seq<Event> {
    OwnershipEvents(Ascending(WonHoldings(db)), HOUSE, ContactReclaimed, "won", None, now)
  }

  function Home(c: Contact): Contact {
    c.(owner := HOUSE, batch := None)
  }

  /** The expiry step sends home exactly the leads of overdue batches. */
  lemma {:induction false} ExpireEffect(db: Db, now: Time)
    ensures Expire(db, now).events == db.events + ExpiredEvents(db, now)
    ensures Expire(db, now).batches == db.batches
    ensures Expire(db, now).contacts.Keys == db.contacts.Keys
    ensures forall id :: id in db.contacts ==>
              Expire(db, now).contacts[id] == if id in DueToExpire(db, now) then Home(db.contacts[id]) else db.contacts[id]
  {
    var due := Ascending(DueToExpire(db, now));
    SetOwnersLogs(db, due, HOUSE, ContactAssignmentExpired, "expired", None, now);
    SetOwnersMoves(db, due, HOUSE, ContactAssignmentExpired, "expired", None, now);
  }

  /** The won step sends home exactly the won leads still held. */
  lemma {:induction false} TerminateEffect(db: Db, now: Time)
    ensures TerminateWon(db, now).events == db.events + WonEvents(db, now)
    ensures TerminateWon(db, now).batches == db.batches
    ensures TerminateWon(db, now).contacts.Keys == db.contacts.Keys
    ensures forall id :: id in db.contacts ==>
              TerminateWon(db, now).contacts[id] == if id in WonHoldings(db) then Home(db.contacts[id]) else db.contacts[id]
  {
    var due := Ascending(WonHoldings(db));
    SetOwnersLogs(db, due, HOUSE, ContactReclaimed, "won", None, now);
    SetOwnersMoves(db, due, HOUSE, ContactReclaimed, "won", None, now);
  }

  lemma {:induction false} ReturnsLog(judged: Db, expiryAt: Time, wonAt: Time)
    ensures TerminateWon(Expire(judged, expiryAt), wonAt).events
            == judged.events + (ExpiredEvents(judged, expiryAt) + WonEvents(Expire(judged, expiryAt), wonAt))
  {
    ExpireEffect(judged, expiryAt);
    TerminateEffect(Expire(judged, expiryAt), wonAt);
    Associate(judged.events, ExpiredEvents(judged, expiryAt), WonEvents(Expire(judged, expiryAt), wonAt));
  }

  lemma {:induction false} Associate(a: seq<Event>, b: seq<Event>, c: seq<Event>)
    ensures a + b + c == a + (b + c)
  {
  }

  lemma {:induction false} ReturnsKeepColumns(judged: Db, expiryAt: Time, wonAt: Time, id: Id)
    requires id in judged.contacts
    ensures id in TerminateWon(Expire(judged, expiryAt), wonAt).contacts
    ensures var later := TerminateWon(Expire(judged, expiryAt), wonAt).contacts[id];
            later.stage == judged.contacts[id].stage && later.addressUndeliverable == judged.contacts[id].addressUndeliverable
  {
    ExpireEffect(judged, expiryAt);
    TerminateEffect(Expire(judged, expiryAt), wonAt);
  }

  /** Each lead released that night, even one both expired and won, gets exactly one ownership event;
      every other contact gets none. */
  lemma {:induction false} OneEventPerRelease(db: Db, expiryAt: Time, wonAt: Time, id: Id)
    requires id in db.contacts
    ensures var after := Night(db, expiryAt, wonAt);
            && |db.events| <= |after.events| && id in after.contacts
            && OwnershipCount(after.events[|db.events|..], id)
               == if db.contacts[id].batch.Some? && after.contacts[id].batch.None? then 1 else 0
  {
    var judged := Recompute(db, None);
    var returned := Expire(judged, expiryAt);
    ExpireEffect(judged, expiryAt);
    TerminateEffect(returned, wonAt);
    ReturnsLog(judged, expiryAt, wonAt);
    assert Night(db, expiryAt, wonAt).events[|db.events|..] == ExpiredEvents(judged, expiryAt) + WonEvents(returned, wonAt);
    OwnershipCountConcat(ExpiredEvents(judged, expiryAt), WonEvents(returned, wonAt), id);
    OneEventEach(Ascending(DueToExpire(judged, expiryAt)), ContactAssignmentExpired, "expired", expiryAt, id);
    OneEventEach(Ascending(WonHoldings(returned)), ContactReclaimed, "won", wonAt, id);
  }

  // A night read off the tables.

  /** Two pieces of this contact came back. */
  ghost predicate MailCameBackTwice(log: seq<Event>, id: Id) {
    exists i, j :: 0 <= i < j < |log| && CameBack(log[i], id) && CameBack(log[j], id)
  }

  ghost predicate MailCameBack(log: seq<Event>, id: Id) {
    exists i :: 0 <= i < |log| && CameBack(log[i], id)
  }

  ghost predicate CameBack(e: Event, id: Id) {
    e.kind == PieceReturned && e.contact == Some(id)
  }

  lemma {:induction false} ReturnedSnoc(events: seq<Event>, e: Event)
    ensures ReturnedCount(events + [e]) == ReturnedCount(events) + if e.kind == PieceReturned then 1 else 0
  {
    ReturnedRemove(events + [e], |events|);
    assert (events + [e])[..|events|] + (events + [e])[|events| + 1..] == events;
  }

  lemma {:induction false} ReturnedInLog(log: seq<Event>, id: Id)
    ensures ReturnedCount(Rehydrated(log, id)) >= 1 <==> MailCameBack(log, id)
    ensures ReturnedCount(Rehydrated(log, id)) >= 2 <==> MailCameBackTwice(log, id)
  {
    if log != [] {
      var front, last := log[..|log| - 1], log[|log| - 1];
      ReturnedInLog(front, id);
      ReturnedSnoc(Rehydrated(front, id), last);
      assert forall i :: 0 <= i < |log| ==> log[i] == if i < |front| then front[i] else last;
    }
  }

  /** `own` holds the events of the contact, in any order. */
  ghost predicate AreEventsOf(own: seq<Event>, log: seq<Event>, id: Id) {
    forall e :: e in own <==> e in log && e.contact == Some(id)
  }

  /** Rederiving reads every event of the contact that means anything, and no other. */
  lemma {:induction false} RederivedMeans(log: seq<Event>, id: Id, own: seq<Event>)
    requires AreEventsOf(own, log, id)
    ensures DeriveStage(Rehydrated(log, id)) == Meaning(own)
    ensures IsAddressUndeliverable(Rehydrated(log, id)) <==> MailCameBackTwice(log, id)
  {
    StageReadsJudgedEventsOnly(Rehydrated(log, id), own);
    StageMeaning(own);
    ReturnedInLog(log, id);
  }

  /** recompute_state sets the two derived columns of the contacts asked for, and nothing else. */
  lemma {:induction false} RecomputeSets(db: Db, only: Option<Id>, id: Id, own: seq<Event>)
    requires id in db.contacts && AreEventsOf(own, db.events, id)
    ensures var after := Recompute(db, only);
            && after == db.(contacts := after.contacts) && after.contacts.Keys == db.contacts.Keys
            && after.contacts[id] == (if only == None || only == Some(id)
                                      then db.contacts[id].(stage := Meaning(own), addressUndeliverable := MailCameBackTwice(db.events, id))
                                      else db.contacts[id])
  {
    RederivedMeans(db.events, id, own);
  }

  /** The batch's term was over at the expiry step. */
  ghost predicate IsOverdue(db: Db, c: Contact, expiryAt: Time) {
    c.batch.Some? && c.batch.value in db.batches && db.batches[c.batch.value].expiresAt < expiryAt
  }

  /** A night by columns: the derived columns are those of the contact's events; a lead held before goes home
      exactly when its term is over or its stage is won, and otherwise stays where it was. */
  lemma {:induction false} NightReturnsExactly(db: Db, expiryAt: Time, wonAt: Time, id: Id, own: seq<Event>)
    requires id in db.contacts && AreEventsOf(own, db.events, id)
    ensures var c, after := db.contacts[id], Night(db, expiryAt, wonAt);
            var goesHome := c.batch.Some? && (IsOverdue(db, c, expiryAt) || Meaning(own) == Won);
            && after.contacts.Keys == db.contacts.Keys && after.batches == db.batches
            && after.contacts[id] == c.(stage := Meaning(own), addressUndeliverable := MailCameBackTwice(db.events, id),
                                        owner := if goesHome then 1 else c.owner, batch := if goesHome then None else c.batch)
  {
    var judged := Recompute(db, None);
    RecomputeSets(db, None, id, own);
    ExpirySendsHome(judged, expiryAt);
    WonStepSendsHome(Expire(judged, expiryAt), wonAt);
    assert id in Overdue(judged, expiryAt) <==> IsOverdue(db, db.contacts[id], expiryAt);
  }

  /** After a night a lead still held is in a batch that was unexpired at the expiry step, and is not won. */
  lemma {:induction false} HeldLeadsAreLive(db: Db, now: Time, expiryAt: Time, wonAt: Time, id: Id)
    requires CustodyInv(db, now) && id in db.contacts
    ensures var after := Night(db, expiryAt, wonAt);
            && id in after.contacts
            && (after.contacts[id].batch.Some? ==>
                  && after.contacts[id].batch.value in after.batches
                  && after.batches[after.contacts[id].batch.value].expiresAt >= expiryAt
                  && after.contacts[id].stage != Won
                  && after.contacts[id].owner == db.contacts[id].owner
                  && after.contacts[id].batch == db.contacts[id].batch)
  {
    var own := Timeline(db.events, id);
    TimelineMembers(db.events, id);
    NightReturnsExactly(db, expiryAt, wonAt, id, own);
    assert ContactSound(db, id);
  }

  lemma {:induction false} OwnershipBringsNothingBack(log: seq<Event>, more: seq<Event>, id: Id)
    requires forall i :: 0 <= i < |more| ==> more[i].kind in OWNERSHIP
    ensures MailCameBackTwice(log + more, id) == MailCameBackTwice(log, id)
  {
    var all := log + more;
    forall i | |log| <= i < |all| ensures !CameBack(all[i], id) {
      assert all[i] == more[i - |log|];
    }
    assert forall i :: 0 <= i < |log| ==> all[i] == log[i];
  }

  /** After a night both derived columns are what the contact's final events mean. */
  lemma {:induction false} SnapshotsAreCurrent(db: Db, expiryAt: Time, wonAt: Time, id: Id, own: seq<Event>)
    requires id in db.contacts && AreEventsOf(own, Night(db, expiryAt, wonAt).events, id)
    ensures var after := Night(db, expiryAt, wonAt);
            && id in after.contacts && after.contacts[id].stage == Meaning(own)
            && (after.contacts[id].addressUndeliverable <==> MailCameBackTwice(after.events, id))
  {
    var judged := Recompute(db, None);
    var more := ExpiredEvents(judged, expiryAt) + WonEvents(Expire(judged, expiryAt), wonAt);
    assert judged.events == db.events && judged.contacts[id] == Recomputed(db, id);
    ReturnsKeepColumns(judged, expiryAt, wonAt, id);
    ReturnsLog(judged, expiryAt, wonAt);
    StageIgnoresOwnership(db.events, more, id);
    OwnershipBringsNothingBack(db.events, more, id);
    RederivedMeans(db.events + more, id, own);
    ReturnedInLog(db.events, id);
  }
}
