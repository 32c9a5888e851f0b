/** One whole pass of the hybrid scrub, every code against its own recorded snapshot
    (jobs/dnc_refresh.py: dnc_refresh_all). */
module Scrub {
  import opened Types
  import opened Registry
  import opened Snapshots
  import opened Custody
  import opened CustodyProofs

  /** The files `*_<code>_*.zip` of one holder's directory for one date. */
  function Directory(disk: map<DiskPath, Archive>, holder: Id, date: int, areaCode: string): map<FileName, Archive> {
    map p | p in disk && p.holder == holder && p.date == date
            && IdentityOf(p.name).Some? && p.name.identity.areaCode == areaCode :: p.name := disk[p]
  }

  function DirectoryOf(disk: map<DiskPath, Archive>, r: Snapshot, areaCode: string): map<FileName, Archive> {
    Directory(disk, r.holder, DateOn(r), areaCode)
  }

  function Nationals(rows: seq<DueRow>): set<string> {
    set i | 0 <= i < |rows| :: National(rows[i].phone)
  }

  /** What becomes of one area code: skipped, scrubbed against a snapshot, or the pass dies. */
  datatype Plan = Skip | Check(snapshot: Id, hits: set<string>) | Die

  ghost function PlanFor(snapshots: seq<Snapshot>, disk: map<DiskPath, Archive>, rows: seq<DueRow>, areaCode: string): Plan {
    var cover := Newest(snapshots, areaCode);
    if cover.None? || rows == [] then Skip else
    match Listing(DirectoryOf(disk, snapshots[cover.value], areaCode), areaCode, Nationals(rows))
    case Ok(hits) => Check(cover.value, hits)
    case Refused => Skip
    case Raised => Die
  }

  ghost predicate RowsHere(db: Db, rows: seq<DueRow>) {
    forall i :: 0 <= i < |rows| ==> rows[i].id in db.contacts
  }

  lemma {:induction false} RowsInHere(db: Db, rows: seq<DueRow>, areaCode: string)
    requires RowsHere(db, rows)
    ensures RowsHere(db, RowsIn(rows, areaCode))
  {
    var part := RowsIn(rows, areaCode);
    forall i | 0 <= i < |part| ensures part[i].id in db.contacts {
      assert part[i] in part;
    }
  }

  /** The version stamped on check events is the snapshot's own date; its text plays no part here. */
  const LEDGER_VERSION := ""

  ghost function RefreshCodes(db: Db, disk: map<DiskPath, Archive>, now: Time, rows: seq<DueRow>, codes: seq<string>): (r: Db)
    requires RowsHere(db, rows)
    ensures r.contacts.Keys == db.contacts.Keys
    decreases |codes|
  {
    if codes == [] then db else
    var mine := RowsIn(rows, codes[0]);
    RowsInHere(db, rows, codes[0]);
    match PlanFor(db.snapshots, disk, mine, codes[0])
    case Skip => RefreshCodes(db, disk, now, rows, codes[1..])
    case Die => db
    case Check(snapshot, hits) =>
      RefreshCodes(ScrubRows(db, now, mine, hits, LEDGER_VERSION, Some(snapshot)), disk, now, rows, codes[1..])
  }

  lemma {:induction false} RefreshCodesStep(db: Db, disk: map<DiskPath, Archive>, now: Time, rows: seq<DueRow>, codes: seq<string>, i: nat)
    requires RowsHere(db, rows) && i < |codes|
    ensures RowsHere(db, RowsIn(rows, codes[i]))
    ensures var mine := RowsIn(rows, codes[i]);
            RefreshCodes(db, disk, now, rows, codes[i..])
            == match PlanFor(db.snapshots, disk, mine, codes[i])
               case Skip => RefreshCodes(db, disk, now, rows, codes[i + 1..])
               case Die => db
               case Check(snapshot, hits) =>
                 RefreshCodes(ScrubRows(db, now, mine, hits, LEDGER_VERSION, Some(snapshot)), disk, now, rows, codes[i + 1..])
  {
    RowsInHere(db, rows, codes[i]);
    assert codes[i..][0] == codes[i] && codes[i..][1..] == codes[i + 1..];
  }

  function DueAll(db: Db, now: Time, limit: Option<nat>): (rows: seq<DueRow>)
    ensures forall i :: 0 <= i < |rows| ==> rows[i].id in db.contacts
  {
    var ids := DueIds(db, now, limit);
    assert forall i :: 0 <= i < |ids| ==> IsDue(db, now, ids[i]);
    DueRows(db, ids)
  }

  /** `codes` is the order in which the subscribed codes come back from the database. */
  ghost function RefreshAll(db: Db, disk: map<DiskPath, Archive>, now: Time, codes: seq<string>, limit: Option<nat>): Db {
    RefreshCodes(db, disk, now, DueAll(db, now, limit), codes)
  }

  datatype SkipReason = NoSnapshot | WorkingCopyMissing

  datatype DncReport = DncReport(checked: nat, hits: nat, cleared: nat, skips: seq<(string, SkipReason)>)

  const NOTHING := DncReport(0, 0, 0, [])

  function Plus(a: DncReport, b: DncReport): DncReport {
    DncReport(a.checked + b.checked, a.hits + b.hits, a.cleared + b.cleared, a.skips + b.skips)
  }

  /** What the report says of one code. */
  ghost function CodeReport(snapshots: seq<Snapshot>, disk: map<DiskPath, Archive>, due: seq<DueRow>, code: string): DncReport {
    var rows := RowsIn(due, code);
    if Newest(snapshots, code).None? then NOTHING.(skips := [(code, NoSnapshot)])
    else if rows == [] then NOTHING
    else match PlanFor(snapshots, disk, rows, code)
      case Check(_, hits) => DncReport(|rows|, Hits(rows, hits), Delistings(rows, hits), [])
      case _ => NOTHING.(skips := [(code, WorkingCopyMissing)])
  }

  ghost function PassReport(snapshots: seq<Snapshot>, disk: map<DiskPath, Archive>, due: seq<DueRow>, codes: seq<string>): DncReport {
    if codes == [] then NOTHING else
    Plus(PassReport(snapshots, disk, due, codes[..|codes| - 1]), CodeReport(snapshots, disk, due, codes[|codes| - 1]))
  }

  /** A pass dies on a file that neither answers nor is refused. */
  ghost predicate Dies(snapshots: seq<Snapshot>, disk: map<DiskPath, Archive>, due: seq<DueRow>, codes: seq<string>) {
    exists i :: 0 <= i < |codes| && PlanFor(snapshots, disk, RowsIn(due, codes[i]), codes[i]).Die?
  }

  lemma {:induction false} OneMoreCode(snapshots: seq<Snapshot>, disk: map<DiskPath, Archive>, due: seq<DueRow>, codes: seq<string>, i: nat)
    requires i < |codes|
    ensures PassReport(snapshots, disk, due, codes[..i + 1])
            == Plus(PassReport(snapshots, disk, due, codes[..i]), CodeReport(snapshots, disk, due, codes[i]))
    ensures var dies := PlanFor(snapshots, disk, RowsIn(due, codes[i]), codes[i]).Die?;
            && (Dies(snapshots, disk, due, codes[..i + 1]) <==> Dies(snapshots, disk, due, codes[..i]) || dies)
            && (dies ==> Dies(snapshots, disk, due, codes))
  {
    assert codes[..i + 1][..i] == codes[..i] && codes[..i + 1][i] == codes[i];
    if Dies(snapshots, disk, due, codes[..i]) {
      var k :| 0 <= k < i && PlanFor(snapshots, disk, RowsIn(due, codes[..i][k]), codes[..i][k]).Die?;
      assert codes[..i + 1][k] == codes[..i][k];
    }
    if Dies(snapshots, disk, due, codes[..i + 1]) {
      var k :| 0 <= k < i + 1 && PlanFor(snapshots, disk, RowsIn(due, codes[..i + 1][k]), codes[..i + 1][k]).Die?;
      assert k < i ==> codes[..i][k] == codes[..i + 1][k];
    }
  }

  // A pass that nothing interrupts reads no stale owner.

  /** A row remembers a contact that is now with a partner as one that was with a partner. */
  ghost predicate Remembers(db: Db, row: DueRow) {
    && row.id in db.contacts && db.contacts[row.id].phone == Some(row.phone)
    && (db.contacts[row.id].owner != HOUSE ==> row.owner != HOUSE)
  }

  ghost predicate RememberAll(db: Db, rows: seq<DueRow>) {
    forall i :: 0 <= i < |rows| ==> Remembers(db, rows[i])
  }

  /** Scrubbing never changes a phone, and moves contacts only to the house. */
  ghost predicate OnlyReturns(db: Db, db': Db) {
    && db'.contacts.Keys == db.contacts.Keys
    && db'.snapshots == db.snapshots && db'.batches == db.batches
    && forall id :: id in db.contacts ==>
      db'.contacts[id].phone == db.contacts[id].phone
      && (db'.contacts[id].owner == db.contacts[id].owner || db'.contacts[id].owner == HOUSE)
  }

  lemma {:induction false} ApplyOnlyReturns(db: Db, now: Time, row: DueRow, hit: bool, version: string, snapshot: Option<Id>)
    requires row.id in db.contacts
    ensures OnlyReturns(db, ApplyRow(db, now, row, hit, version, snapshot))
  {
  }

  lemma {:induction false} ClearOnlyReturns(db: Db, now: Time, id: Id, source: Source, external: Option<ExternalId>)
    ensures OnlyReturns(db, ClearRegistry(db, now, id, source, external))
  {
  }

  lemma {:induction false} ScrubRowKeeps(db: Db, now: Time, row: DueRow, hits: set<string>, version: string, snapshot: Option<Id>)
    requires CustodyInv(db, now) && row.id in db.contacts
    ensures Keeps(db, ScrubRow(db, now, row, hits, version, snapshot), now)
    ensures OnlyReturns(db, ScrubRow(db, now, row, hits, version, snapshot))
    ensures NoneForbidden(db) && Remembers(db, row) ==> NoneForbidden(ScrubRow(db, now, row, hits, version, snapshot))
  {
    var hit := National(row.phone) in hits;
    var applied := ApplyRow(db, now, row, hit, version, snapshot);
    ApplyRowKeeps(db, now, row, hit, version, snapshot);
    ApplyOnlyReturns(db, now, row, hit, version, snapshot);
    if !hit && row.listed {
      ClearKeeps(applied, now, row.id, System, ClearKey(row.id, snapshot));
      ClearOnlyReturns(applied, now, row.id, System, ClearKey(row.id, snapshot));
    }
  }

  lemma {:induction false} ScrubRowsKeep(db: Db, now: Time, rows: seq<DueRow>, hits: set<string>, version: string, snapshot: Option<Id>)
    requires CustodyInv(db, now) && RowsHere(db, rows)
    ensures var db' := ScrubRows(db, now, rows, hits, version, snapshot);
            && Keeps(db, db', now) && OnlyReturns(db, db')
            && (NoneForbidden(db) && RememberAll(db, rows) ==> NoneForbidden(db'))
  {
    if rows != [] {
      var front, last := rows[..|rows| - 1], rows[|rows| - 1];
      ScrubRowsKeep(db, now, front, hits, version, snapshot);
      var mid := ScrubRows(db, now, front, hits, version, snapshot);
      assert RememberAll(db, rows) ==> RememberAll(db, front) && Remembers(db, last);
      assert Remembers(db, last) ==> Remembers(mid, last);
      ScrubRowKeeps(mid, now, last, hits, version, snapshot);
    }
  }

  lemma {:induction false} RefreshCodesKeep(db: Db, disk: map<DiskPath, Archive>, now: Time, rows: seq<DueRow>, codes: seq<string>)
    requires CustodyInv(db, now) && RowsHere(db, rows)
    ensures var db' := RefreshCodes(db, disk, now, rows, codes);
            && Keeps(db, db', now) && OnlyReturns(db, db')
            && (NoneForbidden(db) && RememberAll(db, rows) ==> NoneForbidden(db'))
    decreases |codes|
  {
    if codes != [] {
      var mine := RowsIn(rows, codes[0]);
      RowsInHere(db, rows, codes[0]);
      var plan := PlanFor(db.snapshots, disk, mine, codes[0]);
      if plan.Skip? {
        RefreshCodesKeep(db, disk, now, rows, codes[1..]);
      } else if plan.Check? {
        ScrubRowsKeep(db, now, mine, plan.hits, LEDGER_VERSION, Some(plan.snapshot));
        var mid := ScrubRows(db, now, mine, plan.hits, LEDGER_VERSION, Some(plan.snapshot));
        if RememberAll(db, rows) {
          forall i | 0 <= i < |mine| ensures Remembers(db, mine[i]) {
            assert mine[i] in mine;
          }
          forall i | 0 <= i < |rows| ensures Remembers(mid, rows[i]) {
            assert Remembers(db, rows[i]);
          }
        }
        RefreshCodesKeep(mid, disk, now, rows, codes[1..]);
      }
    }
  }

  /** An uninterrupted pass keeps every listed or do-not-call number with the house. */
  lemma {:induction false} RefreshAllKeeps(db: Db, disk: map<DiskPath, Archive>, now: Time, codes: seq<string>, limit: Option<nat>)
    requires CustodyInv(db, now)
    ensures var db' := RefreshAll(db, disk, now, codes, limit);
            && Keeps(db, db', now) && OnlyReturns(db, db')
            && (NoneForbidden(db) ==> NoneForbidden(db'))
  {
    var rows := DueAll(db, now, limit);
    assert RememberAll(db, rows);
    RefreshCodesKeep(db, disk, now, rows, codes);
  }
}
