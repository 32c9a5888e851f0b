/** The custody tables as the verbs update them: row by row, inside one transaction. Each method is
    proved to leave the tables exactly where its function in Custody or Scrub says. */
module Spine {
  import opened Types
  import opened Derivation
  import opened Registry
  import opened Snapshots
  import opened Custody
  import opened CustodyProofs
  import opened Scrub

  class Tables {
    var contacts: map<Id, Contact>
    var batches: map<Id, Batch>
    var partners: map<Id, Partner>
    var events: seq<Event>
    var subscriptions: set<string>
    var tombstones: seq<Tombstone>
    var snapshots: seq<Snapshot>

    function Value(): Db
      reads this
    {
      Db(contacts, batches, partners, events, subscriptions, tombstones, snapshots)
    }

    constructor (db: Db)
      ensures Value() == db
    {
      contacts, batches, partners, events := db.contacts, db.batches, db.partners, db.events;
      subscriptions, tombstones, snapshots := db.subscriptions, db.tombstones, db.snapshots;
    }

    /** append_event on the caller's cursor. */
    method AppendEvent(e: Event)
      modifies this`events
      ensures events == Append(old(events), e)
    {
      if e.external.Some? && HasKey(events, e.source, e.external.value) {
        return;
      }
      events := events + [e];
    }

    /** The single writer of the owner column. */
    method MoveOwner(id: Id, owner: Id, kind: EventType, reason: string, batch: Option<Id>, now: Time)
      requires id in contacts
      modifies this`contacts, this`events
      ensures Value() == SetOwner(old(Value()), id, owner, kind, reason, batch, now)
    {
      contacts := contacts[id := contacts[id].(owner := owner, batch := batch)];
      AppendEvent(OwnershipEvent(id, owner, kind, reason, batch, now));
    }

    method MoveAll(ids: seq<Id>, owner: Id, kind: EventType, reason: string, batch: Option<Id>, now: Time)
      requires forall id :: id in ids ==> id in contacts
      modifies this`contacts, this`events
      ensures Value() == SetOwners(old(Value()), ids, owner, kind, reason, batch, now)
    {
      ghost var db := Value();
      var i := 0;
      while i < |ids|
        invariant 0 <= i <= |ids|
        invariant Value() == SetOwners(db, ids[..i], owner, kind, reason, batch, now)
      {
        SetOwnersStep(db, ids, i, owner, kind, reason, batch, now);
        assert ids[i] in db.contacts;
        MoveOwner(ids[i], owner, kind, reason, batch, now);
        i := i + 1;
      }
      assert ids[..|ids|] == ids;
    }

    /** S-1. `matches` is what the rule's where-clause selects; `batch` is the id the insert generates. */
    method AssignBatch(call: AssignCall, matches: set<Id>, batch: Id, now: Time) returns (r: AssignResult)
      requires batch !in batches
      modifies this`contacts, this`batches, this`events
      ensures Value() == Assign(old(Value()), now, call, matches, batch)
      ensures match Refusal(old(Value()), call)
              case Some(error) => r == Declined(error)
              case None =>
                if IsRetry(old(Value()), call)
                then r == RetryReceipt(old(Value()), MinOf(KeyHolders(old(Value()), call.key)))
                else r.NewBatch? && r.batch == batch
                     && r.leads == Chosen(old(Value()), now, call, matches)
                     && IsShortfall(old(Value()), now, Candidates(old(Value()), call, matches), r.shortfall)
    {
      if call.rule.Some? && call.ids.Some? {
        return Declined(BadRequest);
      }
      var request := RequestOf(call);
      if call.partner !in partners {
        return Declined(NoPartner);
      }
      if !partners[call.partner].active {
        return Declined(InactivePartner);
      }
      var holders := KeyHolders(Value(), call.key);
      if holders != {} {
        var known := MinOf(holders);
        if batches[known].request != request {
          return Declined(KeyMismatch);
        }
        return RetryReceipt(Value(), known);
      }
      var count := call.count;
      if call.ids.None? {
        if count.None? {
          if partners[call.partner].weeklyHours.None? {
            return Declined(NoCount);
          }
          count := Some(DerivedBatchSize(partners[call.partner].weeklyHours.value));
        }
        if RuleOf(call).Some? && BadRule(RuleOf(call).value) {
          return Declined(BadRuleKey);
        }
      }
      r := OpenBatch(call, count, matches, batch, now);
    }

    /** The batch row, then the moves. */
    method OpenBatch(call: AssignCall, count: Option<int>, matches: set<Id>, batch: Id, now: Time) returns (r: AssignResult)
      requires batch !in batches && IsNewBatch(Value(), call) && count == CountOf(Value(), call)
      modifies this`contacts, this`batches, this`events
      ensures Value() == Assign(old(Value()), now, call, matches, batch)
      ensures r.NewBatch? && r.batch == batch
      ensures r.leads == Chosen(old(Value()), now, call, matches)
      ensures IsShortfall(old(Value()), now, Candidates(old(Value()), call, matches), r.shortfall)
    {
      ghost var db := Value();
      var rows := Candidates(Value(), call, matches);
      var leads, shortfall := GateRows(Value(), rows, count, now);
      assert leads == Chosen(db, now, call, matches);
      var row := Batch(call.partner, call.key, RequestOf(call), count, |leads|, now + ASSIGNMENT_EXPIRY_DAYS * DAY);
      batches := batches[batch := row];
      assert Value() == WithBatch(db, now, call, matches, batch);
      MoveAll(leads, call.partner, ContactAssigned, "assigned", Some(batch), now);
      return NewBatch(batch, leads, shortfall);
    }

    /** The loop over the locked candidate rows, which nothing else can change meanwhile. */
    static method GateRows(db: Db, rows: seq<Id>, count: Option<int>, now: Time)
      returns (leads: seq<Id>, shortfall: map<Cause, seq<Id>>)
      requires forall id :: id in rows ==> id in db.contacts
      ensures leads == FirstN(Passing(db, now, rows), count)
      ensures IsShortfall(db, now, rows, shortfall)
    {
      leads, shortfall := [], map[];
      var i := 0;
      while i < |rows|
        invariant 0 <= i <= |rows| && Gating(leads, shortfall) == GateAll(db, now, rows[..i], count)
      {
        assert rows[..i + 1][..i] == rows[..i];
        leads, shortfall := GateRow(rows[i], Gate(db, now, db.contacts[rows[i]]), count, leads, shortfall);
        i := i + 1;
      }
      assert rows[..|rows|] == rows;
      GateAllIsGated(db, now, rows, count);
    }

    /** One gated row: taken, left over, or one more under its cause. */
    static method GateRow(id: Id, cause: Option<Cause>, count: Option<int>, leads: seq<Id>, shortfall: map<Cause, seq<Id>>)
      returns (leads': seq<Id>, shortfall': map<Cause, seq<Id>>)
      ensures leads' == NextLeads(leads, count, cause, id) && shortfall' == NextShortfall(shortfall, cause, id)
    {
      leads', shortfall' := leads, shortfall;
      if cause.None? && (count.None? || |leads| < count.value) {
        leads' := leads + [id];
      } else if cause.Some? {
        shortfall' := shortfall[cause.value := (if cause.value in shortfall then shortfall[cause.value] else []) + [id]];
      }
    }

    /** S-2: the sheet and the shortfall; stamps the partner's last export. None is an unknown partner. */
    method ExportBatch(partner: Id, now: Time) returns (r: Option<(seq<SheetRow>, seq<Id>)>)
      modifies this`partners
      ensures Value() == Exported(old(Value()), now, partner)
      ensures r.None? <==> partner !in old(partners)
      ensures r.Some? ==> r.value.0 == Sheet(old(Value()), now, partner)
      ensures r.Some? ==> r.value.1 == Stale(old(Value()), now, SheetIds(old(Value()), partner))
    {
      if partner !in partners {
        return None;
      }
      var db := Value();
      partners := partners[partner := partners[partner].(lastExportAt := Some(now))];
      var rows, stale := RowsAndStale(db, SheetIds(db, partner), now);
      return Some((rows, stale));
    }

    /** The loop over the rows that the query returned. */
    static method RowsAndStale(db: Db, ids: seq<Id>, now: Time) returns (rows: seq<SheetRow>, stale: seq<Id>)
      requires Sheetable(db, ids)
      ensures rows == SheetRows(db, now, ids) && stale == Stale(db, now, ids)
    {
      rows, stale := [], [];
      var i := 0;
      while i < |ids|
        invariant 0 <= i <= |ids| && Sheetable(db, ids[..i])
        invariant rows == SheetRows(db, now, ids[..i]) && stale == Stale(db, now, ids[..i])
      {
        SheetRowsStep(db, now, ids, i);
        StaleStep(db, now, ids, i);
        var c := db.contacts[ids[i]];
        if !DncFresh(db.snapshots, c, now) {
          stale := stale + [ids[i]];
        } else {
          rows := rows + [SheetRow(ids[i], c.phone, db.batches[c.batch.value].expiresAt, now)];
        }
        i := i + 1;
      }
      assert ids[..|ids|] == ids;
    }

    /** S-5. None is the refusal of a blank reason. */
    method ReclaimAll(partner: Id, reason: string, now: Time) returns (r: Option<nat>)
      modifies this`contacts, this`events
      ensures Value() == Reclaim(old(Value()), now, partner, reason)
      ensures r == if IsBlank(reason) then None else Some(|Holdings(old(Value()), partner)|)
    {
      if IsBlank(reason) {
        return None;
      }
      var holdings := Ascending(Holdings(Value(), partner));
      MoveAll(holdings, HOUSE, ContactReclaimed, reason, None, now);
      return Some(|holdings|);
    }

    method RunExpiryStep(now: Time) returns (n: nat)
      modifies this`contacts, this`events
      ensures Value() == Expire(old(Value()), now)
      ensures n == |DueToExpire(old(Value()), now)|
    {
      var due := Ascending(DueToExpire(Value(), now));
      MoveAll(due, HOUSE, ContactAssignmentExpired, "expired", None, now);
      return |due|;
    }

    method RunWonTerminationStep(now: Time) returns (n: nat)
      modifies this`contacts, this`events
      ensures Value() == TerminateWon(old(Value()), now)
      ensures n == |WonHoldings(old(Value()))|
    {
      var due := Ascending(WonHoldings(Value()));
      MoveAll(due, HOUSE, ContactReclaimed, "won", None, now);
      return |due|;
    }

    method SuppressContact(s: Suppression, now: Time) returns (r: Option<Error>)
      modifies this`contacts, this`events, this`tombstones
      ensures Value() == Suppress(old(Value()), now, s)
      ensures r == SuppressRefusal(old(Value()), s)
    {
      if s.scope.UnknownChannel? {
        return Some(BadChannel);
      }
      if IsBlank(s.reason) || (s.scope == All && s.reason == "do_not_mail") {
        return Some(BadReason);
      }
      if s.id !in contacts {
        return Some(NoContact);
      }
      var phone, owner := contacts[s.id].phone, contacts[s.id].owner;
      contacts := contacts[s.id := Flagged(contacts[s.id], s.scope)];
      AppendEvent(SuppressionEvent(s, now));
      tombstones := tombstones + Stones(phone, s.listKey, s.scope);
      if BlocksVoice(s.scope) && owner != HOUSE {
        MoveOwner(s.id, HOUSE, ContactReclaimed, EndReason(s.scope), None, now);
      }
      return None;
    }

    /** Only the registry flag clears; every channel a person asked for is refused. */
    method ClearSuppression(id: Id, channel: string, source: Source, external: Option<ExternalId>, now: Time)
      returns (r: Option<Error>)
      modifies this`contacts, this`events
      ensures r == if channel != "dnc_registry" then Some(NotClearable)
                   else if id !in old(contacts) then Some(NoContact) else None
      ensures Value() == if r.Some? then old(Value()) else ClearRegistry(old(Value()), now, id, source, external)
    {
      if channel != "dnc_registry" {
        return Some(NotClearable);
      }
      if id !in contacts {
        return Some(NoContact);
      }
      contacts := contacts[id := contacts[id].(dncRegistry := false)];
      AppendEvent(ClearedEvent(id, source, external, now));
      return None;
    }

    /** The per-contact loop of the scrub over one area code's rows. */
    method ApplyRows(rows: seq<DueRow>, onRegistry: set<string>, version: string, snapshot: Option<Id>, now: Time)
      returns (checked: nat, hits: nat, cleared: nat)
      requires forall i :: 0 <= i < |rows| ==> rows[i].id in contacts
      modifies this`contacts, this`events
      ensures Value() == ScrubRows(old(Value()), now, rows, onRegistry, version, snapshot)
      ensures checked == |rows| && hits == Hits(rows, onRegistry) && cleared == Delistings(rows, onRegistry)
    {
      ghost var db := Value();
      checked, hits, cleared := 0, 0, 0;
      while checked < |rows|
        invariant 0 <= checked <= |rows|
        invariant hits == Hits(rows[..checked], onRegistry) && cleared == Delistings(rows[..checked], onRegistry)
        invariant Value() == ScrubRows(db, now, rows[..checked], onRegistry, version, snapshot)
      {
        CountStep(rows, checked, onRegistry);
        var isHit, isCleared := ApplyNext(db, rows, checked, onRegistry, version, snapshot, now);
        hits, cleared := hits + (if isHit then 1 else 0), cleared + if isCleared then 1 else 0;
        checked := checked + 1;
      }
      assert rows[..|rows|] == rows;
    }

    method ApplyNext(ghost db: Db, rows: seq<DueRow>, i: nat, onRegistry: set<string>, version: string, snapshot: Option<Id>, now: Time)
      returns (hit: bool, delisted: bool)
      requires i < |rows| && forall k :: 0 <= k < |rows| ==> rows[k].id in db.contacts
      requires Value() == ScrubRows(db, now, rows[..i], onRegistry, version, snapshot)
      modifies this`contacts, this`events
      ensures Value() == ScrubRows(db, now, rows[..i + 1], onRegistry, version, snapshot)
      ensures hit == (National(rows[i].phone) in onRegistry) && delisted == (!hit && rows[i].listed)
    {
      ghost var before := Value();
      assert contacts.Keys == db.contacts.Keys;
      hit, delisted := ScrubOneRow(rows[i], onRegistry, version, snapshot, now);
      ScrubRowsStep(db, now, rows, i, onRegistry, version, snapshot, before, Value());
    }

    /** One contact: the verdict in one transaction, a delisting in the next. */
    method ScrubOneRow(row: DueRow, onRegistry: set<string>, version: string, snapshot: Option<Id>, now: Time)
      returns (hit: bool, delisted: bool)
      requires row.id in contacts
      modifies this`contacts, this`events
      ensures Value() == ScrubRow(old(Value()), now, row, onRegistry, version, snapshot)
      ensures hit == (National(row.phone) in onRegistry) && delisted == (!hit && row.listed)
    {
      hit := National(row.phone) in onRegistry;
      delisted := false;
      var c := contacts[row.id];
      contacts := contacts[row.id := c.(dncCheckedAt := Some(now), dncRegistry := hit,
                                        dncSnapshot := if snapshot.Some? then snapshot else c.dncSnapshot)];
      AppendEvent(CheckedEvent(row.id, version, snapshot, now));
      if hit && row.owner != HOUSE {
        MoveOwner(row.id, HOUSE, ContactReclaimed, "dnc_registry", None, now);
      }
      if !hit && row.listed {
        var _ := ClearSuppression(row.id, "dnc_registry", System, ClearKey(row.id, snapshot), now);
        delisted := true;
      }
    }

    /** The hybrid pass. `codes` is the subscribed codes in the order the database returns them. */
    method DncRefreshAll(disk: map<DiskPath, Archive>, codes: seq<string>, limit: Option<nat>, now: Time)
      returns (r: Option<DncReport>)
      modifies this`contacts, this`events
      ensures Value() == RefreshAll(old(Value()), disk, now, codes, limit)
      ensures var due := DueAll(old(Value()), now, limit);
              r == if Dies(snapshots, disk, due, codes) then None else Some(PassReport(snapshots, disk, due, codes))
    {
      r := RefreshCodesOf(DueAll(Value(), now, limit), disk, codes, now);
    }

    method RefreshCodesOf(due: seq<DueRow>, disk: map<DiskPath, Archive>, codes: seq<string>, now: Time) returns (r: Option<DncReport>)
      requires RowsHere(Value(), due)
      modifies this`contacts, this`events
      ensures Value() == RefreshCodes(old(Value()), disk, now, due, codes)
      ensures r == if Dies(snapshots, disk, due, codes) then None else Some(PassReport(snapshots, disk, due, codes))
    {
      ghost var end := RefreshCodes(Value(), disk, now, due, codes);
      assert codes[0..] == codes;
      var report := NOTHING;
      var i := 0;
      while i < |codes|
        invariant 0 <= i <= |codes|
        invariant IsUnderWay(Value(), end, disk, now, due, codes[i..])
        invariant IsReported(snapshots, disk, due, codes[..i], report)
      {
        ReportGrows(snapshots, disk, due, codes, i, report);
        var more := RefreshNext(end, disk, due, codes, i, now);
        if more.None? {
          return None;
        }
        report := Plus(report, more.value);
        i := i + 1;
      }
      assert codes[..|codes|] == codes && codes[|codes|..] == [];
      return Some(report);
    }

    method RefreshNext(ghost end: Db, disk: map<DiskPath, Archive>, due: seq<DueRow>, codes: seq<string>, i: nat, now: Time)
      returns (r: Option<DncReport>)
      requires i < |codes| && IsUnderWay(Value(), end, disk, now, due, codes[i..])
      modifies this`contacts, this`events
      ensures if r.None? then Value() == end else IsUnderWay(Value(), end, disk, now, due, codes[i + 1..])
      ensures r == if PlanFor(snapshots, disk, RowsIn(due, codes[i]), codes[i]).Die? then None
                   else Some(CodeReport(snapshots, disk, due, codes[i]))
    {
      RefreshCodesStep(Value(), disk, now, due, codes, i);
      r := RefreshCode(disk, due, codes[i], now);
    }

    /** One code of the pass: skipped, scrubbed, or the pass dies on an exception nobody catches. */
    method RefreshCode(disk: map<DiskPath, Archive>, due: seq<DueRow>, code: string, now: Time) returns (r: Option<DncReport>)
      requires RowsHere(Value(), RowsIn(due, code))
      modifies this`contacts, this`events
      ensures match PlanFor(old(snapshots), disk, RowsIn(due, code), code)
              case Skip => Value() == old(Value())
              case Die => Value() == old(Value())
              case Check(snapshot, hits) =>
                Value() == ScrubRows(old(Value()), now, RowsIn(due, code), hits, LEDGER_VERSION, Some(snapshot))
      ensures r == if PlanFor(old(snapshots), disk, RowsIn(due, code), code).Die? then None
                   else Some(CodeReport(old(snapshots), disk, due, code))
    {
      var rows := RowsIn(due, code);
      var cover := Newest(snapshots, code);
      if cover.None? {
        return Some(NOTHING.(skips := [(code, NoSnapshot)]));
      }
      if rows == [] {
        return Some(NOTHING);
      }
      var answer := Listed(DirectoryOf(disk, snapshots[cover.value], code), code, Nationals(rows));
      match answer {
        case Raised => return None;
        case Refused => return Some(NOTHING.(skips := [(code, WorkingCopyMissing)]));
        case Ok(found) =>
          var checked, hits, cleared := ApplyRows(rows, found, LEDGER_VERSION, Some(cover.value), now);
          return Some(DncReport(checked, hits, cleared, []));
      }
    }

    method RecomputeState(only: Option<Id>) returns (updated: nat)
      modifies this`contacts
      ensures Value() == Recompute(old(Value()), only)
      ensures updated == if only.None? then |old(contacts)| else if only.value in old(contacts) then 1 else 0
    {
      var asked := if only.None? then contacts.Keys else set id | id in contacts && id == only.value;
      var updates := Rederive(asked);
      UpdatesAre(Value(), only, asked, updates);
      contacts := contacts + updates;
      OneAsked(asked, old(contacts).Keys, only);
      return |asked|;
    }

    method Rederive(asked: set<Id>) returns (updates: map<Id, Contact>)
      requires asked <= contacts.Keys
      ensures updates.Keys == asked && forall id :: id in updates ==> updates[id] == Recomputed(Value(), id)
    {
      updates := map[];
      var left := asked;
      while left != {}
        invariant left <= asked && updates.Keys == asked - left
        invariant forall id :: id in updates ==> updates[id] == Recomputed(Value(), id)
        decreases |left|
      {
        var id := MinOf(left);
        updates := updates[id := Refreshed(contacts[id], Rehydrated(events, id))];
        left := left - {id};
      }
    }
  }

  /** What is left of a pass leads to its end. */
  ghost predicate IsUnderWay(db: Db, end: Db, disk: map<DiskPath, Archive>, now: Time, due: seq<DueRow>, rest: seq<string>) {
    RowsHere(db, due) && end == RefreshCodes(db, disk, now, due, rest)
  }

  /** The report so far, of a pass that has not died. */
  ghost predicate IsReported(snapshots: seq<Snapshot>, disk: map<DiskPath, Archive>, due: seq<DueRow>, codes: seq<string>, report: DncReport) {
    report == PassReport(snapshots, disk, due, codes) && !Dies(snapshots, disk, due, codes)
  }

  lemma {:induction false} ReportGrows(snapshots: seq<Snapshot>, disk: map<DiskPath, Archive>, due: seq<DueRow>, codes: seq<string>, i: nat, report: DncReport)
    requires i < |codes| && IsReported(snapshots, disk, due, codes[..i], report)
    ensures if PlanFor(snapshots, disk, RowsIn(due, codes[i]), codes[i]).Die? then Dies(snapshots, disk, due, codes)
            else IsReported(snapshots, disk, due, codes[..i + 1], Plus(report, CodeReport(snapshots, disk, due, codes[i])))
  {
    OneMoreCode(snapshots, disk, due, codes, i);
  }

  lemma {:induction false} UpdatesAre(db: Db, only: Option<Id>, asked: set<Id>, updates: map<Id, Contact>)
    requires asked == if only.None? then db.contacts.Keys else set id | id in db.contacts && id == only.value
    requires updates.Keys == asked && forall id :: id in updates ==> updates[id] == Recomputed(db, id)
    ensures db.contacts + updates == Recompute(db, only).contacts
  {
    var later := Recompute(db, only).contacts;
    forall id | id in later ensures (db.contacts + updates)[id] == later[id] {
    }
  }

  lemma {:induction false} CountStep(rows: seq<DueRow>, i: nat, onRegistry: set<string>)
    requires i < |rows|
    ensures var hit := National(rows[i].phone) in onRegistry;
            && Hits(rows[..i + 1], onRegistry) == Hits(rows[..i], onRegistry) + (if hit then 1 else 0)
            && Delistings(rows[..i + 1], onRegistry)
               == Delistings(rows[..i], onRegistry) + (if !hit && rows[i].listed then 1 else 0)
  {
    assert rows[..i + 1][..i] == rows[..i];
  }

  lemma {:induction false} OneAsked(asked: set<Id>, all: set<Id>, only: Option<Id>)
    requires asked == if only.None? then all else set id | id in all && id == only.value
    ensures |asked| == if only.None? then |all| else if only.value in all then 1 else 0
  {
    if only.Some? && only.value in all {
      assert asked == {only.value};
    }
  }
}
