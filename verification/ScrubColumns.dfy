/** A scrub read off the tables: who is due and in what order, what one row's write leaves behind, and what a
    whole pass leaves on every contact (jobs/dnc_refresh.py). */
module ScrubColumns {
  import opened Types
  import opened Registry
  import opened Snapshots
  import opened Custody
  import opened CustodyProofs
  import opened CustodyColumns
  import opened Scrub

  // Who is due.

  /** A number in a subscribed area, not a seed's, unchecked or last checked more than 21 days ago. */
  ghost predicate NeedsCheck(db: Db, now: Time, id: Id) {
    && id in db.contacts && !db.contacts[id].isSeed && db.contacts[id].phone.Some?
    && InSubscribedArea(db, db.contacts[id].phone.value)
    && (db.contacts[id].dncCheckedAt.Some? ==> now - db.contacts[id].dncCheckedAt.value > 21 * 24 * 3600)
  }

  ghost function DueWithPartners(db: Db, now: Time): set<Id> {
    set id | id in db.contacts && NeedsCheck(db, now, id) && db.contacts[id].owner != 1
  }

  ghost function DueWithHouse(db: Db, now: Time): set<Id> {
    set id | id in db.contacts && NeedsCheck(db, now, id) && db.contacts[id].owner == 1
  }

  ghost predicate IsRowFor(db: Db, row: DueRow, id: Id) {
    && id in db.contacts && db.contacts[id].phone.Some?
    && row == DueRow(id, db.contacts[id].phone.value, db.contacts[id].owner, db.contacts[id].dncRegistry)
  }

  lemma {:induction false} DueWhen(db: Db, now: Time, id: Id)
    ensures IsDue(db, now, id) <==> NeedsCheck(db, now, id)
  {
    if id in db.contacts && db.contacts[id].phone.Some? {
      SubscribedWhen(db, db.contacts[id].phone.value);
    }
  }

  /** The pass reads the due leads of partners in order of id, then those of the house in order of id, and
      stops at the limit. */
  lemma {:induction false} DueInOrder(db: Db, now: Time, limit: Option<nat>) returns (held: seq<Id>, pool: seq<Id>)
    ensures AreInOrder(held, DueWithPartners(db, now)) && AreInOrder(pool, DueWithHouse(db, now))
    ensures |DueAll(db, now, limit)| == (if limit.Some? && limit.value < |held + pool| then limit.value else |held + pool|)
    ensures forall i :: 0 <= i < |DueAll(db, now, limit)| ==> IsRowFor(db, DueAll(db, now, limit)[i], (held + pool)[i])
  {
    held, pool := DueHeld(db, now), DuePool(db, now);
    forall id: Id ensures id in held <==> id in DueWithPartners(db, now) {
      DueWhen(db, now, id);
    }
    forall id: Id ensures id in pool <==> id in DueWithHouse(db, now) {
      DueWhen(db, now, id);
    }
    var ids := DueIds(db, now, limit);
    assert ids <= held + pool;
    forall i | 0 <= i < |ids| ensures IsRowFor(db, DueAll(db, now, limit)[i], (held + pool)[i]) {
      assert ids[i] == (held + pool)[i] && IsDue(db, now, ids[i]);
    }
  }

  lemma {:induction false} DueOnce(db: Db, now: Time, limit: Option<nat>)
    ensures IdsDistinct(DueAll(db, now, limit))
    ensures forall row :: row in DueAll(db, now, limit) ==> IsRowFor(db, row, row.id) && NeedsCheck(db, now, row.id)
  {
    var held, pool := DueInOrder(db, now, limit);
    HeldThenPool(db, now, held, pool);
    RowsFollow(db, DueAll(db, now, limit), held + pool);
    var rows := DueAll(db, now, limit);
    forall row | row in rows ensures NeedsCheck(db, now, row.id) {
      var i :| 0 <= i < |rows| && rows[i] == row;
      assert row.id == (held + pool)[i] && (held + pool)[i] in held + pool;
    }
  }

  lemma {:induction false} HeldThenPool(db: Db, now: Time, held: seq<Id>, pool: seq<Id>)
    requires AreInOrder(held, DueWithPartners(db, now)) && AreInOrder(pool, DueWithHouse(db, now))
    ensures Distinct(held + pool) && forall id :: id in held + pool ==> NeedsCheck(db, now, id)
  {
    forall i, j | 0 <= i < |held| && 0 <= j < |pool| ensures held[i] != pool[j] {
      assert held[i] in held && pool[j] in pool;
    }
  }

  lemma {:induction false} RowsFollow(db: Db, rows: seq<DueRow>, ids: seq<Id>)
    requires |rows| <= |ids| && Distinct(ids) && forall i :: 0 <= i < |rows| ==> IsRowFor(db, rows[i], ids[i])
    ensures IdsDistinct(rows)
    ensures forall i :: 0 <= i < |rows| ==> rows[i].id == ids[i] && IsRowFor(db, rows[i], rows[i].id)
  {
  }

  // One row.

  /** The registry's list has the number, without its +1. */
  ghost predicate IsListed(phone: string, hits: set<string>) {
    exists n :: n in hits && if "+1" <= phone then phone == "+1" + n else phone == n
  }

  lemma {:induction false} ListedWhen(phone: string, hits: set<string>)
    ensures National(phone) in hits <==> IsListed(phone, hits)
  {
    if "+1" <= phone {
      assert phone == "+1" + phone[2..];
      assert forall n: string :: ("+1" + n)[2..] == n;
    }
    if n :| n in hits && if "+1" <= phone then phone == "+1" + n else phone == n {
      assert National(phone) == n;
    }
  }

  /** What a checked contact becomes. `held` is the row's memory of being with a partner. */
  ghost function Checked(c: Contact, held: bool, hit: bool, now: Time, snapshot: Option<Id>): Contact {
    c.(dncCheckedAt := Some(now), dncRegistry := hit,
       dncSnapshot := if snapshot.Some? then snapshot else c.dncSnapshot,
       owner := if hit && held then 1 else c.owner,
       batch := if hit && held then None else c.batch)
  }

  /** The check under its key, a listed lead's return, a delisting under its own key. */
  ghost function CheckLog(log: seq<Event>, row: DueRow, hit: bool, now: Time, version: string, snapshot: Option<Id>): seq<Event> {
    var key := if snapshot.Some? then DncKey(row.id, snapshot.value) else DncVersionKey(row.id, version);
    var checked := Append(log, Event(Some(row.id), None, System, ContactDncChecked, now, Some(key), Payload(snapshot := snapshot)));
    if hit then
      if row.owner == 1 then checked else
      checked + [Event(Some(row.id), None, System, ContactReclaimed, now, None,
                       Payload(reason := Some("dnc_registry"), newOwner := Some(1)))]
    else if !row.listed then checked else
      Append(checked, Event(Some(row.id), None, System, ContactSuppressionCleared, now,
                            if snapshot.Some? then Some(DncClearKey(row.id, snapshot.value)) else None, Payload()))
  }

  /** A row's two writes: the contact's own columns and the log; nothing else changes. */
  lemma {:induction false} RowSets(db: Db, now: Time, row: DueRow, hits: set<string>, version: string, snapshot: Option<Id>)
    requires row.id in db.contacts
    ensures var after := ScrubRow(db, now, row, hits, version, snapshot);
            && after == db.(contacts := after.contacts, events := after.events)
            && after.contacts == db.contacts[row.id := Checked(db.contacts[row.id], row.owner != 1, IsListed(row.phone, hits), now, snapshot)]
            && after.events == CheckLog(db.events, row, IsListed(row.phone, hits), now, version, snapshot)
  {
    ListedWhen(row.phone, hits);
    var hit := IsListed(row.phone, hits);
    ApplySets(db, now, row, hit, version, snapshot);
    var applied := ApplyRow(db, now, row, hit, version, snapshot);
    if !hit && row.listed {
      assert applied.contacts[row.id].(dncRegistry := false) == applied.contacts[row.id];
    }
  }

  lemma {:induction false} ApplySets(db: Db, now: Time, row: DueRow, hit: bool, version: string, snapshot: Option<Id>)
    requires row.id in db.contacts
    ensures var after := ApplyRow(db, now, row, hit, version, snapshot);
            && after == db.(contacts := after.contacts, events := after.events)
            && after.contacts == db.contacts[row.id := Checked(db.contacts[row.id], row.owner != 1, hit, now, snapshot)]
            && after.events == CheckLog(db.events, row.(listed := false), hit, now, version, snapshot)
  {
  }

  // A whole pass.

  ghost predicate IdsDistinct(rows: seq<DueRow>) {
    forall i, j :: 0 <= i < j < |rows| ==> rows[i].id != rows[j].id
  }

  /** Rows over distinct contacts: each contact is checked by its own row, the others are untouched. */
  lemma {:induction false} RowsSet(db: Db, now: Time, rows: seq<DueRow>, hits: set<string>, version: string, snapshot: Option<Id>, id: Id)
    requires RowsHere(db, rows) && IdsDistinct(rows) && id in db.contacts
    ensures var after := ScrubRows(db, now, rows, hits, version, snapshot).contacts;
            && (forall i :: 0 <= i < |rows| && rows[i].id == id ==>
                  after[id] == Checked(db.contacts[id], rows[i].owner != 1, IsListed(rows[i].phone, hits), now, snapshot))
            && ((forall i :: 0 <= i < |rows| ==> rows[i].id != id) ==> after[id] == db.contacts[id])
  {
    if rows != [] {
      var front, last := rows[..|rows| - 1], rows[|rows| - 1];
      RowsSet(db, now, front, hits, version, snapshot, id);
      RowSets(ScrubRows(db, now, front, hits, version, snapshot), now, last, hits, version, snapshot);
      assert forall i :: 0 <= i < |front| ==> front[i] == rows[i];
      assert forall i :: 0 <= i < |rows| ==> rows[i] == (if i < |front| then front[i] else last);
    }
  }

  lemma {:induction false} RowsInDistinct(rows: seq<DueRow>, areaCode: string)
    requires IdsDistinct(rows)
    ensures IdsDistinct(RowsIn(rows, areaCode))
  {
    if rows != [] {
      var front, last := rows[..|rows| - 1], rows[|rows| - 1];
      RowsInDistinct(front, areaCode);
      var rest := RowsIn(front, areaCode);
      forall i | 0 <= i < |rest| ensures rest[i].id != last.id {
        assert rest[i] in front;
        var j :| 0 <= j < |front| && front[j] == rest[i];
        assert rows[j] == rest[i];
      }
    }
  }

  ghost function PlanOf(snapshots: seq<Snapshot>, disk: map<DiskPath, Archive>, due: seq<DueRow>, row: DueRow): Plan {
    PlanFor(snapshots, disk, RowsIn(due, AreaCode(row.phone)), AreaCode(row.phone))
  }

  /** A row whose code is asked for is checked against the list of its code's plan, if the plan is to check. */
  ghost function Marked(c: Contact, row: DueRow, now: Time, plan: Plan, asked: bool): Contact {
    if asked && plan.Check? then Checked(c, row.owner != 1, IsListed(row.phone, plan.hits), now, Some(plan.snapshot)) else c
  }

  lemma {:induction false} CodesSet(db: Db, disk: map<DiskPath, Archive>, now: Time, due: seq<DueRow>, codes: seq<string>, row: DueRow)
    requires RowsHere(db, due) && IdsDistinct(due) && Distinct(codes) && !Dies(db.snapshots, disk, due, codes)
    requires row in due && row.id in db.contacts
    ensures RefreshCodes(db, disk, now, due, codes).contacts[row.id]
            == Marked(db.contacts[row.id], row, now, PlanOf(db.snapshots, disk, due, row), AreaCode(row.phone) in codes)
    decreases |codes|
  {
    if codes != [] {
      RowsInHere(db, due, codes[0]);
      DiesLater(db.snapshots, disk, due, codes);
      var mine, plan := RowsIn(due, codes[0]), PlanFor(db.snapshots, disk, RowsIn(due, codes[0]), codes[0]);
      assert AreaCode(row.phone) in codes <==> AreaCode(row.phone) == codes[0] || AreaCode(row.phone) in codes[1..];
      if plan.Skip? {
        CodesSet(db, disk, now, due, codes[1..], row);
      } else {
        CodeSets(db, now, due, codes[0], plan, row);
        CodesSet(ScrubRows(db, now, mine, plan.hits, LEDGER_VERSION, Some(plan.snapshot)), disk, now, due, codes[1..], row);
      }
    }
  }

  /** One code's scrub checks its own rows and leaves the others, and the lists, as they were. */
  lemma {:induction false} CodeSets(db: Db, now: Time, due: seq<DueRow>, code: string, plan: Plan, row: DueRow)
    requires RowsHere(db, due) && RowsHere(db, RowsIn(due, code)) && IdsDistinct(due) && row in due && row.id in db.contacts && plan.Check?
    ensures var after := ScrubRows(db, now, RowsIn(due, code), plan.hits, LEDGER_VERSION, Some(plan.snapshot));
            && after.contacts[row.id] == Marked(db.contacts[row.id], row, now, plan, AreaCode(row.phone) == code)
            && after.snapshots == db.snapshots
  {
    RowsInDistinct(due, code);
    RowsSet(db, now, RowsIn(due, code), plan.hits, LEDGER_VERSION, Some(plan.snapshot), row.id);
    SnapshotsStay(db, now, RowsIn(due, code), plan.hits, LEDGER_VERSION, Some(plan.snapshot));
    OneRowEach(due, code, row);
  }

  /** Of rows with distinct ids, a code's part has the row of this contact or none of its. */
  lemma {:induction false} OneRowEach(due: seq<DueRow>, code: string, row: DueRow)
    requires IdsDistinct(due) && row in due
    ensures var mine := RowsIn(due, code);
            && (AreaCode(row.phone) == code ==> exists i :: 0 <= i < |mine| && mine[i] == row)
            && (AreaCode(row.phone) != code ==> forall i :: 0 <= i < |mine| ==> mine[i].id != row.id)
  {
    var mine := RowsIn(due, code);
    if AreaCode(row.phone) == code {
      assert row in mine;
    } else {
      var k :| 0 <= k < |due| && due[k] == row;
      forall i | 0 <= i < |mine| ensures mine[i].id != row.id {
        assert mine[i] in due && AreaCode(mine[i].phone) == code;
        var j :| 0 <= j < |due| && due[j] == mine[i];
      }
    }
  }

  lemma {:induction false} DiesLater(snapshots: seq<Snapshot>, disk: map<DiskPath, Archive>, due: seq<DueRow>, codes: seq<string>)
    requires codes != [] && !Dies(snapshots, disk, due, codes)
    ensures !Dies(snapshots, disk, due, codes[1..]) && !PlanFor(snapshots, disk, RowsIn(due, codes[0]), codes[0]).Die?
  {
    assert forall i :: 0 <= i < |codes[1..]| ==> codes[1..][i] == codes[i + 1];
  }

  lemma {:induction false} SnapshotsStay(db: Db, now: Time, rows: seq<DueRow>, hits: set<string>, version: string, snapshot: Option<Id>)
    requires RowsHere(db, rows)
    ensures ScrubRows(db, now, rows, hits, version, snapshot).snapshots == db.snapshots
  {
    if rows != [] {
      SnapshotsStay(db, now, rows[..|rows| - 1], hits, version, snapshot);
    }
  }

  lemma {:induction false} OthersStay(db: Db, disk: map<DiskPath, Archive>, now: Time, due: seq<DueRow>, codes: seq<string>, id: Id)
    requires RowsHere(db, due) && IdsDistinct(due) && id in db.contacts && forall i :: 0 <= i < |due| ==> due[i].id != id
    ensures RefreshCodes(db, disk, now, due, codes).contacts[id] == db.contacts[id]
    decreases |codes|
  {
    if codes != [] {
      var mine := RowsIn(due, codes[0]);
      RowsInHere(db, due, codes[0]);
      RowsInDistinct(due, codes[0]);
      forall i | 0 <= i < |mine| ensures mine[i].id != id {
        assert mine[i] in due;
      }
      var plan := PlanFor(db.snapshots, disk, mine, codes[0]);
      if plan.Skip? {
        OthersStay(db, disk, now, due, codes[1..], id);
      } else if plan.Check? {
        RowsSet(db, now, mine, plan.hits, LEDGER_VERSION, Some(plan.snapshot), id);
        OthersStay(ScrubRows(db, now, mine, plan.hits, LEDGER_VERSION, Some(plan.snapshot)), disk, now, due, codes[1..], id);
      }
    }
  }

  /** A pass that reaches its end checks each due contact of a readable code, once, against that code's list as
      it stood at the start, and leaves every other contact as it was. */
  lemma {:induction false} PassChecksTheDue(db: Db, disk: map<DiskPath, Archive>, now: Time, codes: seq<string>, limit: Option<nat>)
    requires Distinct(codes) && !Dies(db.snapshots, disk, DueAll(db, now, limit), codes)
    ensures var due := DueAll(db, now, limit);
            var after := RefreshAll(db, disk, now, codes, limit).contacts;
            && (forall row :: row in due ==>
                  row.id in db.contacts
                  && after[row.id] == Marked(db.contacts[row.id], row, now, PlanOf(db.snapshots, disk, due, row), AreaCode(row.phone) in codes))
            && (forall id :: id in db.contacts && (forall i :: 0 <= i < |due| ==> due[i].id != id) ==> after[id] == db.contacts[id])
  {
    var due := DueAll(db, now, limit);
    DueOnce(db, now, limit);
    forall row | row in due
      ensures row.id in db.contacts
      ensures RefreshCodes(db, disk, now, due, codes).contacts[row.id]
              == Marked(db.contacts[row.id], row, now, PlanOf(db.snapshots, disk, due, row), AreaCode(row.phone) in codes)
    {
      CodesSet(db, disk, now, due, codes, row);
    }
    forall id | id in db.contacts && forall i :: 0 <= i < |due| ==> due[i].id != id
      ensures RefreshCodes(db, disk, now, due, codes).contacts[id] == db.contacts[id]
    {
      OthersStay(db, disk, now, due, codes, id);
    }
  }
  // The report of a pass.

  /** The due rows of the code, by their place in the pass. */
  ghost function PlacesOf(due: seq<DueRow>, code: string): set<nat> {
    set i: nat | i < |due| && AreaCode(due[i].phone) == code
  }

  ghost function ListedPlaces(due: seq<DueRow>, code: string, hits: set<string>): set<nat> {
    set i: nat | i < |due| && AreaCode(due[i].phone) == code && IsListed(due[i].phone, hits)
  }

  /** On the flag before, and not on the list now. */
  ghost function ClearedPlaces(due: seq<DueRow>, code: string, hits: set<string>): set<nat> {
    set i: nat | i < |due| && AreaCode(due[i].phone) == code && !IsListed(due[i].phone, hits) && due[i].listed
  }

  lemma {:induction false} CodeCounts(due: seq<DueRow>, code: string, hits: set<string>)
    ensures |RowsIn(due, code)| == |PlacesOf(due, code)|
    ensures Hits(RowsIn(due, code), hits) == |ListedPlaces(due, code, hits)|
    ensures Delistings(RowsIn(due, code), hits) == |ClearedPlaces(due, code, hits)|
  {
    if due == [] {
      assert PlacesOf(due, code) == {} && ListedPlaces(due, code, hits) == {} && ClearedPlaces(due, code, hits) == {};
    } else {
      var front, k := due[..|due| - 1], |due| - 1;
      CodeCounts(front, code, hits);
      OneMorePlace(due, code, hits);
      OneMoreRow(due, code, hits);
      var mine, isHit := AreaCode(due[k].phone) == code, IsListed(due[k].phone, hits);
      AddedSize(PlacesOf(front, code), PlacesOf(due, code), k, mine);
      AddedSize(ListedPlaces(front, code, hits), ListedPlaces(due, code, hits), k, mine && isHit);
      AddedSize(ClearedPlaces(front, code, hits), ClearedPlaces(due, code, hits), k, mine && !isHit && due[k].listed);
    }
  }

  lemma {:induction false} AddedSize(before: set<nat>, after: set<nat>, k: nat, added: bool)
    requires k !in before && after == before + if added then {k} else {}
    ensures |after| == |before| + if added then 1 else 0
  {
  }

  lemma {:induction false} OneMorePlace(due: seq<DueRow>, code: string, hits: set<string>)
    requires due != []
    ensures var front, k := due[..|due| - 1], |due| - 1;
            var mine, isHit := AreaCode(due[k].phone) == code, IsListed(due[k].phone, hits);
            && PlacesOf(due, code) == PlacesOf(front, code) + (if mine then {k} else {})
            && ListedPlaces(due, code, hits) == ListedPlaces(front, code, hits) + (if mine && isHit then {k} else {})
            && ClearedPlaces(due, code, hits) == ClearedPlaces(front, code, hits) + (if mine && !isHit && due[k].listed then {k} else {})
  {
  }

  lemma {:induction false} OneMoreRow(due: seq<DueRow>, code: string, hits: set<string>)
    requires due != []
    ensures var front, last := due[..|due| - 1], due[|due| - 1];
            var mine, isHit := AreaCode(last.phone) == code, IsListed(last.phone, hits);
            && |RowsIn(due, code)| == |RowsIn(front, code)| + (if mine then 1 else 0)
            && Hits(RowsIn(due, code), hits) == Hits(RowsIn(front, code), hits) + (if mine && isHit then 1 else 0)
            && Delistings(RowsIn(due, code), hits)
               == Delistings(RowsIn(front, code), hits) + (if mine && !isHit && last.listed then 1 else 0)
  {
    var front, last := due[..|due| - 1], due[|due| - 1];
    ListedWhen(last.phone, hits);
    var rest := RowsIn(front, code);
    assert (rest + [last])[..|rest|] == rest;
  }

  /** What the pass says of a code: how many of its due contacts it checked, how many were listed and how many
      came off; or that it was skipped, for want of an accepted list or of a readable copy. */
  ghost predicate IsCodeReport(snapshots: seq<Snapshot>, disk: map<DiskPath, Archive>, due: seq<DueRow>, code: string, r: DncReport) {
    var plan := PlanFor(snapshots, disk, RowsIn(due, code), code);
    if forall k: nat :: !IsCurrent(snapshots, code, k) then r == DncReport(0, 0, 0, [(code, NoSnapshot)])
    else if PlacesOf(due, code) == {} then r == DncReport(0, 0, 0, [])
    else if plan.Check? then
      r == DncReport(|PlacesOf(due, code)|, |ListedPlaces(due, code, plan.hits)|, |ClearedPlaces(due, code, plan.hits)|, [])
    else r == DncReport(0, 0, 0, [(code, WorkingCopyMissing)])
  }

  lemma {:induction false} CodeReported(snapshots: seq<Snapshot>, disk: map<DiskPath, Archive>, due: seq<DueRow>, code: string)
    ensures IsCodeReport(snapshots, disk, due, code, CodeReport(snapshots, disk, due, code))
  {
    NoListWhen(snapshots, code);
    CodeCounts(due, code, {});
    assert PlacesOf(due, code) == {} <==> RowsIn(due, code) == [];
    var plan := PlanFor(snapshots, disk, RowsIn(due, code), code);
    if plan.Check? {
      CodeCounts(due, code, plan.hits);
    }
  }

  lemma {:induction false} NoListWhen(snapshots: seq<Snapshot>, code: string)
    ensures Newest(snapshots, code).None? <==> forall k: nat :: !IsCurrent(snapshots, code, k)
  {
    forall k: nat ensures IsCurrent(snapshots, code, k) <==> Newest(snapshots, code) == Some(k) {
      CurrentWhen(snapshots, code, k);
    }
    if Newest(snapshots, code).Some? {
      assert IsCurrent(snapshots, code, Newest(snapshots, code).value);
    }
  }

  ghost predicate IsSum(before: DncReport, last: DncReport, r: DncReport) {
    && r.checked == before.checked + last.checked && r.hits == before.hits + last.hits
    && r.cleared == before.cleared + last.cleared && r.skips == before.skips + last.skips
  }

  /** The report of a pass adds up what it says of its codes, in their order. */
  ghost predicate AddsUp(snapshots: seq<Snapshot>, disk: map<DiskPath, Archive>, due: seq<DueRow>, codes: seq<string>, r: DncReport) {
    if codes == [] then r == DncReport(0, 0, 0, [])
    else exists before, last :: AddsUp(snapshots, disk, due, codes[..|codes| - 1], before) && IsSum(before, last, r)
                                && IsCodeReport(snapshots, disk, due, codes[|codes| - 1], last)
  }

  lemma {:induction false} AddsOneMore(snapshots: seq<Snapshot>, disk: map<DiskPath, Archive>, due: seq<DueRow>, codes: seq<string>,
                                       before: DncReport, last: DncReport, r: DncReport)
    requires codes != [] && AddsUp(snapshots, disk, due, codes[..|codes| - 1], before) && IsSum(before, last, r)
    requires IsCodeReport(snapshots, disk, due, codes[|codes| - 1], last)
    ensures AddsUp(snapshots, disk, due, codes, r)
  {
  }

  lemma {:induction false} PassAddsUp(snapshots: seq<Snapshot>, disk: map<DiskPath, Archive>, due: seq<DueRow>, codes: seq<string>)
    ensures AddsUp(snapshots, disk, due, codes, PassReport(snapshots, disk, due, codes))
  {
    if codes != [] {
      var front, code := codes[..|codes| - 1], codes[|codes| - 1];
      PassAddsUp(snapshots, disk, due, front);
      CodeReported(snapshots, disk, due, code);
      AddsOneMore(snapshots, disk, due, codes, PassReport(snapshots, disk, due, front), CodeReport(snapshots, disk, due, code),
                  PassReport(snapshots, disk, due, codes));
    }
  }
}
