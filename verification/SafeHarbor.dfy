/** The safe-harbor theorem: what the scrub stamps on a contact, followed from the uploaded file to
    the partner's sheet (16 CFR 310.4(b)(3)(iv)). */
module SafeHarbor {
  import opened Types
  import opened Registry
  import opened Snapshots
  import opened Custody
  import opened CustodyProofs
  import opened Scrub
  import opened Compliance

  // What a snapshot says about a number.

  ghost predicate Lists(snapshots: seq<Snapshot>, i: nat, number: string) {
    && IsAccepted(snapshots, i) && snapshots[i].identity.Some?
    && WellFormed(snapshots[i].identity.value.areaCode, snapshots[i].digest)
    && number in Numbers(snapshots[i].identity.value.areaCode, snapshots[i].digest)
  }

  ghost predicate AcceptedOn(snapshots: seq<Snapshot>, i: nat, areaCode: string) {
    IsAccepted(snapshots, i) && AcceptedFor(snapshots[i], areaCode)
  }

  /** Two accepted snapshots of one holder, area code and date: the same directory of working copies. */
  ghost predicate SameList(snapshots: seq<Snapshot>, i: nat, k: nat) {
    && IsAccepted(snapshots, i) && IsAccepted(snapshots, k)
    && snapshots[i].identity.Some? && snapshots[k].identity.Some?
    && snapshots[i].holder == snapshots[k].holder
    && snapshots[i].identity.value.areaCode == snapshots[k].identity.value.areaCode
    && snapshots[i].identity.value.date == snapshots[k].identity.value.date
  }

  /** `listed` is what the list named by k says of the number. */
  ghost predicate Verdict(snapshots: seq<Snapshot>, k: nat, number: string, listed: bool) {
    exists i: nat :: SameList(snapshots, i, k) && (listed <==> Lists(snapshots, i, number))
  }

  lemma {:induction false} ListsGrows(snapshots: seq<Snapshot>, more: seq<Snapshot>, i: nat, number: string)
    requires snapshots <= more && i < |snapshots|
    ensures Lists(more, i, number) == Lists(snapshots, i, number)
  {
  }

  lemma {:induction false} VerdictGrows(snapshots: seq<Snapshot>, more: seq<Snapshot>, k: nat, number: string, listed: bool)
    requires snapshots <= more && Verdict(snapshots, k, number, listed)
    ensures Verdict(more, k, number, listed)
  {
    var i: nat :| SameList(snapshots, i, k) && (listed <==> Lists(snapshots, i, number));
    ListsGrows(snapshots, more, i, number);
    assert SameList(more, i, k);
  }

  // A flag a person cleared after the check.

  ghost predicate ClearedAt(events: seq<Event>, id: Id, since: Time, j: nat) {
    && j < |events| && events[j].contact == Some(id)
    && events[j].kind == ContactSuppressionCleared && events[j].source == Human && events[j].at >= since
  }

  /** A person cleared the registry flag no earlier than this. */
  ghost predicate HandCleared(events: seq<Event>, id: Id, since: Time) {
    exists j: nat :: ClearedAt(events, id, since, j)
  }

  lemma {:induction false} HandClearedStays(events: seq<Event>, more: seq<Event>, id: Id, since: Time)
    requires events <= more && HandCleared(events, id, since)
    ensures HandCleared(more, id, since)
  {
    var j: nat :| ClearedAt(events, id, since, j);
    assert ClearedAt(more, id, since, j);
  }

  // The invariant.

  /** Every accepted file keeps one name per FTC guid. */
  type Naming = map<(Id, string), FileName>

  ghost predicate Follows(naming: Naming, holder: Id, name: FileName) {
    IdentityOf(name).Some? ==>
      (holder, name.identity.guid) in naming && naming[(holder, name.identity.guid)] == name
  }

  ghost predicate AllNamed(snapshots: seq<Snapshot>, disk: map<DiskPath, Archive>, naming: Naming) {
    && (forall i :: 0 <= i < |snapshots| ==> Follows(naming, snapshots[i].holder, snapshots[i].key.name))
    && (forall p :: p in disk ==> Follows(naming, p.holder, p.name))
  }

  ghost predicate FilesSound(snapshots: seq<Snapshot>, disk: map<DiskPath, Archive>, naming: Naming) {
    StoreInv(Store(snapshots, disk)) && AllNamed(snapshots, disk, naming)
  }

  /** A stamp is in the past and names an accepted list of the contact's own area code. A standing flag is
      that list's verdict; so is a flag that does not stand, unless a person cleared it since, or a
      delisting did that came too late: then the list does hold the number. */
  ghost predicate Stamped(db: Db, now: Time, late: set<Id>, id: Id)
    requires id in db.contacts
  {
    var c := db.contacts[id];
    if c.dncCheckedAt.None? then !c.dncRegistry && id !in late
    else
      && c.dncCheckedAt.value <= now
      && c.phone.Some? && c.dncSnapshot.Some?
      && AcceptedOn(db.snapshots, c.dncSnapshot.value, AreaCode(c.phone.value))
      && var tells := (listed: bool) => Verdict(db.snapshots, c.dncSnapshot.value, National(c.phone.value), listed);
      if c.dncRegistry then id !in late && tells(true)
      else if id in late then tells(true)
      else HandCleared(db.events, id, c.dncCheckedAt.value) || tells(false)
  }

  ghost predicate AllStamped(db: Db, now: Time, late: set<Id>) {
    late <= db.contacts.Keys && forall id :: id in db.contacts ==> Stamped(db, now, late, id)
  }

  ghost predicate RowIsPhone(db: Db, row: DueRow) {
    row.id in db.contacts && db.contacts[row.id].phone == Some(row.phone)
  }

  ghost predicate RowsArePhones(db: Db, rows: seq<DueRow>) {
    forall i :: 0 <= i < |rows| ==> RowIsPhone(db, rows[i])
  }

  /** The hits agree with list i about every row. */
  ghost predicate HitsTell(snapshots: seq<Snapshot>, i: nat, hits: set<string>, rows: seq<DueRow>) {
    forall k :: 0 <= k < |rows| ==> (National(rows[k].phone) in hits <==> Lists(snapshots, i, National(rows[k].phone)))
  }

  ghost predicate HitsSound(snapshots: seq<Snapshot>, snapshot: nat, hits: set<string>, rows: seq<DueRow>) {
    exists i: nat :: SameList(snapshots, i, snapshot) && HitsTell(snapshots, i, hits, rows)
  }

  ghost predicate RowsOn(rows: seq<DueRow>, areaCode: string) {
    forall i :: 0 <= i < |rows| ==> AreaCode(rows[i].phone) == areaCode
  }

  ghost predicate CodeRunSound(db: Db, run: CodeRun, areaCode: string) {
    && AcceptedOn(db.snapshots, run.snapshot, areaCode)
    && RowsArePhones(db, run.rows) && RowsOn(run.rows, areaCode)
    && HitsSound(db.snapshots, run.snapshot, run.hits, run.rows)
  }

  ghost predicate InFlightSound(db: Db, f: InFlight) {
    && (forall code :: code in f.coverage ==> AcceptedOn(db.snapshots, f.coverage[code], code))
    && RowsArePhones(db, f.due)
    && (f.current.Some? ==> exists areaCode :: CodeRunSound(db, f.current.value, areaCode))
  }

  ghost predicate AllInFlightSound(db: Db, scrubs: map<Id, InFlight>) {
    forall run :: run in scrubs ==> InFlightSound(db, scrubs[run])
  }

  ghost predicate WorldInv(w: World, naming: Naming, late: set<Id>) {
    && CustodyInv(w.db, w.now)
    && FilesSound(w.db.snapshots, w.disk, naming)
    && AllStamped(w.db, w.now, late)
    && AllInFlightSound(w.db, w.scrubs)
  }

  // Late delistings.

  /** A delisting is about to clear a flag that stands: some other scrub has listed the contact since
      this one wrote its row. */
  predicate MeetsFlag(w: World, step: Step) {
    && step.ScrubDelist? && DelistReady(w, step.run)
    && CodeOf(w, step.run).delisting.value.id in w.db.contacts
    && w.db.contacts[CodeOf(w, step.run).delisting.value.id].dncRegistry
  }

  /** The contacts whose flag a delisting has cleared so, and which no scrub has checked again. */
  function LateAfter(w: World, step: Step, late: set<Id>): set<Id> {
    if MeetsFlag(w, step) then late + {CodeOf(w, step.run).delisting.value.id}
    else if step.ScrubOne? && RowReady(w, step.run) then late - {NextRow(w, step.run).id}
    else late
  }

  ghost function Late(now: Time, steps: seq<Step>): set<Id> {
    if steps == [] then {} else
    LateAfter(Run(Genesis(now), steps[..|steps| - 1]), steps[|steps| - 1], Late(now, steps[..|steps| - 1]))
  }

  // From the file to the hits.

  /** The hits read from a directory are the verdict of an accepted list of exactly that holder, code and date. */
  lemma {:induction false} ListingTells(snapshots: seq<Snapshot>, disk: map<DiskPath, Archive>, naming: Naming, k: nat, areaCode: string, rows: seq<DueRow>)
    requires FilesSound(snapshots, disk, naming) && AcceptedOn(snapshots, k, areaCode)
    requires Listing(DirectoryOf(disk, snapshots[k], areaCode), areaCode, Nationals(rows)).Ok?
    ensures HitsSound(snapshots, k, Listing(DirectoryOf(disk, snapshots[k], areaCode), areaCode, Nationals(rows)).value, rows)
  {
    var zips := DirectoryOf(disk, snapshots[k], areaCode);
    var hits := Listing(zips, areaCode, Nationals(rows)).value;
    var name := ListingReads(zips, areaCode, Nationals(rows));
    assert name in zips;
    var path := DiskPath(snapshots[k].holder, DateOn(snapshots[k]), name);
    var i: nat :| Backs(snapshots, i, path, disk[path]);
    assert RowSound(snapshots[i]) && Follows(naming, snapshots[i].holder, snapshots[i].key.name) && Follows(naming, path.holder, name);
    assert snapshots[i].key.name == name;
    assert SameList(snapshots, i, k);
    forall j | 0 <= j < |rows| ensures National(rows[j].phone) in hits <==> Lists(snapshots, i, National(rows[j].phone)) {
      assert National(rows[j].phone) in Nationals(rows);
    }
    assert HitsTell(snapshots, i, hits, rows);
  }

  // What is in flight depends on phones and the ledger only.

  ghost predicate PhonesKept(db: Db, db': Db) {
    && db.snapshots <= db'.snapshots
    && forall id :: id in db.contacts ==> id in db'.contacts && db'.contacts[id].phone == db.contacts[id].phone
  }

  lemma {:induction false} RowsStillPhones(db: Db, db': Db, rows: seq<DueRow>)
    requires RowsArePhones(db, rows) && PhonesKept(db, db')
    ensures RowsArePhones(db', rows)
  {
    forall i | 0 <= i < |rows| ensures RowIsPhone(db', rows[i]) {
      assert RowIsPhone(db, rows[i]);
    }
  }

  lemma {:induction false} CodeRunStays(db: Db, db': Db, run: CodeRun, areaCode: string)
    requires PhonesKept(db, db') && CodeRunSound(db, run, areaCode)
    ensures CodeRunSound(db', run, areaCode)
  {
    RowsStillPhones(db, db', run.rows);
    HitsStay(db.snapshots, db'.snapshots, run.snapshot, run.hits, run.rows);
  }

  lemma {:induction false} HitsStay(snapshots: seq<Snapshot>, more: seq<Snapshot>, k: nat, hits: set<string>, rows: seq<DueRow>)
    requires snapshots <= more && HitsSound(snapshots, k, hits, rows)
    ensures HitsSound(more, k, hits, rows)
  {
    var i: nat :| SameList(snapshots, i, k) && HitsTell(snapshots, i, hits, rows);
    assert SameList(more, i, k);
    forall j | 0 <= j < |rows| ensures National(rows[j].phone) in hits <==> Lists(more, i, National(rows[j].phone)) {
      ListsGrows(snapshots, more, i, National(rows[j].phone));
    }
    assert HitsTell(more, i, hits, rows);
  }

  lemma {:induction false} InFlightStays(db: Db, db': Db, f: InFlight)
    requires PhonesKept(db, db') && InFlightSound(db, f)
    ensures InFlightSound(db', f)
  {
    RowsStillPhones(db, db', f.due);
    if f.current.Some? {
      var areaCode :| CodeRunSound(db, f.current.value, areaCode);
      CodeRunStays(db, db', f.current.value, areaCode);
    }
  }

  lemma {:induction false} AllInFlightStay(db: Db, db': Db, scrubs: map<Id, InFlight>)
    requires PhonesKept(db, db') && AllInFlightSound(db, scrubs)
    ensures AllInFlightSound(db', scrubs)
  {
    forall run | run in scrubs ensures InFlightSound(db', scrubs[run]) {
      InFlightStays(db, db', scrubs[run]);
    }
  }

  // From the hits to the stamp.

  /** What a verb that writes no stamp leaves alone: phones, stamps and the log so far. */
  ghost predicate StampsKept(db: Db, db': Db) {
    && db'.contacts.Keys == db.contacts.Keys && db'.snapshots == db.snapshots && db.events <= db'.events
    && forall id :: id in db.contacts ==> SameStamp(db.contacts[id], db'.contacts[id])
  }

  ghost predicate SameStamp(a: Contact, b: Contact) {
    && b.phone == a.phone && b.dncCheckedAt == a.dncCheckedAt
    && b.dncSnapshot == a.dncSnapshot && b.dncRegistry == a.dncRegistry
  }

  /** A stamp outlives whatever leaves its columns alone, and a change of the late set elsewhere. */
  lemma {:induction false} StampUntouched(db: Db, db': Db, now: Time, now': Time, late: set<Id>, late': set<Id>, id: Id)
    requires id in db.contacts && Stamped(db, now, late, id) && now <= now' && (id in late <==> id in late')
    requires id in db'.contacts && SameStamp(db.contacts[id], db'.contacts[id])
    requires db.snapshots <= db'.snapshots && db.events <= db'.events
    ensures Stamped(db', now', late', id)
  {
    var c := db.contacts[id];
    if c.dncCheckedAt.Some? {
      var n := National(c.phone.value);
      if c.dncRegistry || id in late {
        VerdictGrows(db.snapshots, db'.snapshots, c.dncSnapshot.value, n, true);
      } else if HandCleared(db.events, id, c.dncCheckedAt.value) {
        HandClearedStays(db.events, db'.events, id, c.dncCheckedAt.value);
      } else {
        VerdictGrows(db.snapshots, db'.snapshots, c.dncSnapshot.value, n, false);
      }
    }
  }

  lemma {:induction false} StampsKeptHold(db: Db, db': Db, now: Time, late: set<Id>)
    requires AllStamped(db, now, late) && StampsKept(db, db')
    ensures AllStamped(db', now, late)
  {
    forall id | id in db'.contacts ensures Stamped(db', now, late, id) {
      StampUntouched(db, db', now, now, late, late, id);
    }
  }

  lemma {:induction false} SetOwnersKeepStamps(db: Db, ids: seq<Id>, owner: Id, kind: EventType, reason: string, batch: Option<Id>, now: Time)
    requires forall id :: id in ids ==> id in db.contacts
    ensures StampsKept(db, SetOwners(db, ids, owner, kind, reason, batch, now))
  {
    if ids != [] {
      var front, last := ids[..|ids| - 1], ids[|ids| - 1];
      assert ids == front + [last];
      SetOwnersKeepStamps(db, front, owner, kind, reason, batch, now);
    }
  }

  lemma {:induction false} StampWritten(db: Db, now: Time, late: set<Id>, row: DueRow, hit: bool, k: nat)
    requires RowIsPhone(db, row) && AcceptedOn(db.snapshots, k, AreaCode(row.phone)) && row.id !in late
    requires Verdict(db.snapshots, k, National(row.phone), hit)
    ensures Stamped(ApplyRow(db, now, row, hit, LEDGER_VERSION, Some(k)), now, late, row.id)
  {
  }

  /** A row write stamps its own contact, which is no longer late, and leaves every other stamp. */
  lemma {:induction false} ApplyKeepsStamps(db: Db, now: Time, late: set<Id>, row: DueRow, hit: bool, k: nat)
    requires AllStamped(db, now, late) && RowIsPhone(db, row)
    requires AcceptedOn(db.snapshots, k, AreaCode(row.phone)) && Verdict(db.snapshots, k, National(row.phone), hit)
    ensures AllStamped(ApplyRow(db, now, row, hit, LEDGER_VERSION, Some(k)), now, late - {row.id})
  {
    var db' := ApplyRow(db, now, row, hit, LEDGER_VERSION, Some(k));
    forall id | id in db'.contacts ensures Stamped(db', now, late - {row.id}, id) {
      if id == row.id {
        StampWritten(db, now, late - {row.id}, row, hit, k);
      } else {
        StampUntouched(db, db', now, now, late, late - {row.id}, id);
      }
    }
  }

  /** A delisting that meets no standing flag changes no stamp; one that does makes its contact late. */
  lemma {:induction false} DelistKeepsStamps(db: Db, now: Time, late: set<Id>, row: DueRow, k: nat)
    requires AllStamped(db, now, late)
    ensures var flagged := row.id in db.contacts && db.contacts[row.id].dncRegistry;
            AllStamped(DelistRow(db, now, row, Some(k)), now, if flagged then late + {row.id} else late)
  {
    var db' := DelistRow(db, now, row, Some(k));
    var late' := if row.id in db.contacts && db.contacts[row.id].dncRegistry then late + {row.id} else late;
    forall id | id in db'.contacts ensures Stamped(db', now, late', id) {
      if id != row.id || !db.contacts[id].dncRegistry {
        StampUntouched(db, db', now, now, late, late', id);
      } else {
        assert Stamped(db, now, late, id);
      }
    }
  }

  /** One accepted list per holder, area code and date. */
  ghost predicate ListsUnique(snapshots: seq<Snapshot>) {
    forall i: nat, k: nat :: SameList(snapshots, i, k) ==> i == k
  }

  /** Exactly when a delisting may be written: with one accepted list per holder, code and date and no
      hand clearance, the flag still agrees with the list its stamp names if and only if no flag stands
      at that moment. */
  lemma {:induction false} DelistingIsSafeWhen(db: Db, now: Time, row: DueRow, k: nat)
    requires row.id in db.contacts && Stamped(db, now, {}, row.id) && ListsUnique(db.snapshots)
    requires var c := db.contacts[row.id];
             c.dncCheckedAt.Some? ==> !HandCleared(db.events, row.id, c.dncCheckedAt.value)
    ensures Stamped(DelistRow(db, now, row, Some(k)), now, {}, row.id)
            <==> !(db.contacts[row.id].dncCheckedAt.Some? && db.contacts[row.id].dncRegistry)
  {
    var db' := DelistRow(db, now, row, Some(k));
    var c := db.contacts[row.id];
    if c.dncCheckedAt.Some? && c.dncRegistry {
      SystemClearsNotByHand(db.events, row.id, ClearedEvent(row.id, System, ClearKey(row.id, Some(k)), now), c.dncCheckedAt.value);
      NotBoth(db.snapshots, c.dncSnapshot.value, National(c.phone.value));
    } else {
      StampUntouched(db, db', now, now, {}, {}, row.id);
    }
  }

  lemma {:induction false} SystemClearsNotByHand(events: seq<Event>, id: Id, e: Event, since: Time)
    requires !HandCleared(events, id, since) && e.source != Human
    ensures !HandCleared(Append(events, e), id, since)
  {
    forall j: nat ensures !ClearedAt(Append(events, e), id, since, j) {
      assert !ClearedAt(events, id, since, j);
    }
  }

  /** A list does not both hold a number and not. */
  lemma {:induction false} NotBoth(snapshots: seq<Snapshot>, k: nat, number: string)
    requires ListsUnique(snapshots) && Verdict(snapshots, k, number, true)
    ensures !Verdict(snapshots, k, number, false)
  {
    var i: nat :| SameList(snapshots, i, k) && Lists(snapshots, i, number);
    forall j: nat | SameList(snapshots, j, k) ensures Lists(snapshots, j, number) {
      assert j == k == i;
    }
  }

  lemma {:induction false} HandClearKeepsStamps(db: Db, now: Time, late: set<Id>, id: Id)
    requires AllStamped(db, now, late)
    ensures AllStamped(ClearRegistry(db, now, id, Human, None), now, late)
  {
    if id in db.contacts {
      var db' := ClearRegistry(db, now, id, Human, None);
      assert db'.events == db.events + [ClearedEvent(id, Human, None, now)];
      forall x | x in db'.contacts ensures Stamped(db', now, late, x) {
        assert Stamped(db, now, late, x);
        if x != id || !db.contacts[x].dncRegistry {
          StampUntouched(db, db', now, now, late, late, x);
        } else {
          assert ClearedAt(db'.events, id, db.contacts[id].dncCheckedAt.value, |db.events|);
        }
      }
    }
  }

  // The steps.

  /** One name per FTC guid: an assumption on what the portal generates, not on what partners send. */
  ghost predicate StepNamed(step: Step, naming: Naming) {
    step.Pull? ==> Follows(naming, step.offered.partner, step.offered.key.name)
  }

  ghost predicate AllStepsNamed(steps: seq<Step>, naming: Naming) {
    forall i :: 0 <= i < |steps| ==> StepNamed(steps[i], naming)
  }

  lemma {:induction false} PullKeeps(w: World, naming: Naming, late: set<Id>, known: nat, uploaders: set<Id>, o: InboxObject, lands: bool)
    requires WorldInv(w, naming, late) && Follows(naming, o.partner, o.key.name)
    ensures var w' := Pulled(w, known, uploaders, o, lands);
            FilesSound(w'.db.snapshots, w'.disk, naming) && AllStamped(w'.db, w.now, late) && AllInFlightSound(w'.db, w.scrubs)
  {
    if known <= |w.db.snapshots| {
      var s := Store(w.db.snapshots, w.disk);
      OfferKeeps(s, w.db.snapshots[..known], uploaders, o, lands);
      OfferKeepsNames(s, w.db.snapshots[..known], uploaders, o, lands, naming);
      var w' := Pulled(w, known, uploaders, o, lands);
      AllInFlightStay(w.db, w'.db, w.scrubs);
      forall id | id in w'.db.contacts ensures Stamped(w'.db, w.now, late, id) {
        StampUntouched(w.db, w'.db, w.now, w.now, late, late, id);
      }
    }
  }

  lemma {:induction false} OfferKeepsNames(s: Store, start: seq<Snapshot>, partners: set<Id>, o: InboxObject, lands: bool, naming: Naming)
    requires AllNamed(s.ledger, s.disk, naming) && Follows(naming, o.partner, o.key.name) && start <= s.ledger
    ensures AllNamed(Offer(s, start, partners, o, lands).ledger, Offer(s, start, partners, o, lands).disk, naming)
  {
    if Recorded(start, o.key) {
      var row := AcceptedRow(start, o.key);
      if row.Some? {
        assert s.ledger[row.value] == start[row.value];
      }
    }
  }

  lemma {:induction false} ScrubOneKeeps(w: World, naming: Naming, late: set<Id>, run: Id)
    requires WorldInv(w, naming, late) && RowReady(w, run)
    ensures AllStamped(WriteRow(w, run).db, w.now, late - {NextRow(w, run).id})
    ensures AllInFlightSound(WriteRow(w, run).db, WriteRow(w, run).scrubs)
  {
    var code := CodeOf(w, run);
    var row := NextRow(w, run);
    assert InFlightSound(w.db, w.scrubs[run]);
    var areaCode :| CodeRunSound(w.db, code, areaCode);
    FirstRowTells(w.db, code, areaCode);
    ApplyKeepsStamps(w.db, w.now, late, row, IsHit(w, run), code.snapshot);
    ApplyOnlyReturns(w.db, w.now, row, IsHit(w, run), LEDGER_VERSION, Some(code.snapshot));
    var w' := WriteRow(w, run);
    AllInFlightStay(w.db, w'.db, w.scrubs);
    CodeRunStays(w.db, w'.db, code, areaCode);
    RestOfCode(w'.db, code, areaCode, CodeOf(w', run).delisting);
    OneRunChanges(w, w'.db, run, CodeOf(w', run), areaCode);
  }

  /** One run's progress leaves the others as they are. */
  lemma {:induction false} OneRunChanges(w: World, db: Db, run: Id, code: CodeRun, areaCode: string)
    requires run in w.scrubs && AllInFlightSound(db, w.scrubs) && CodeRunSound(db, code, areaCode)
    ensures AllInFlightSound(db, WithCode(w, run, db, code).scrubs)
  {
    assert InFlightSound(db, w.scrubs[run]);
  }

  lemma {:induction false} FirstRowTells(db: Db, code: CodeRun, areaCode: string)
    requires CodeRunSound(db, code, areaCode) && code.rows != []
    ensures RowIsPhone(db, code.rows[0]) && AreaCode(code.rows[0].phone) == areaCode
    ensures Verdict(db.snapshots, code.snapshot, National(code.rows[0].phone), National(code.rows[0].phone) in code.hits)
  {
    var i: nat :| SameList(db.snapshots, i, code.snapshot) && HitsTell(db.snapshots, i, code.hits, code.rows);
    assert RowIsPhone(db, code.rows[0]);
  }

  lemma {:induction false} RestOfCode(db: Db, code: CodeRun, areaCode: string, delisting: Option<DueRow>)
    requires CodeRunSound(db, code, areaCode) && code.rows != []
    ensures CodeRunSound(db, code.(rows := code.rows[1..], delisting := delisting), areaCode)
  {
    var rest := code.rows[1..];
    var i: nat :| SameList(db.snapshots, i, code.snapshot) && HitsTell(db.snapshots, i, code.hits, code.rows);
    assert HitsTell(db.snapshots, i, code.hits, rest);
    forall j | 0 <= j < |rest| ensures RowIsPhone(db, rest[j]) {
      assert RowIsPhone(db, code.rows[j + 1]);
    }
  }

  lemma {:induction false} ScrubDelistKeeps(w: World, naming: Naming, late: set<Id>, run: Id)
    requires WorldInv(w, naming, late) && DelistReady(w, run)
    ensures AllStamped(WriteDelist(w, run).db, w.now, LateAfter(w, ScrubDelist(run), late))
    ensures AllInFlightSound(WriteDelist(w, run).db, WriteDelist(w, run).scrubs)
  {
    var code := CodeOf(w, run);
    DelistKeepsStamps(w.db, w.now, late, code.delisting.value, code.snapshot);
    var w' := WriteDelist(w, run);
    assert InFlightSound(w.db, w.scrubs[run]);
    var areaCode :| CodeRunSound(w.db, code, areaCode);
    AllInFlightStay(w.db, w'.db, w.scrubs);
    CodeRunStays(w.db, w'.db, code, areaCode);
    assert CodeRunSound(w'.db, code.(delisting := None), areaCode);
    OneRunChanges(w, w'.db, run, code.(delisting := None), areaCode);
  }

  lemma {:induction false} ScrubCodeKeeps(w: World, naming: Naming, late: set<Id>, run: Id, code: string)
    requires WorldInv(w, naming, late)
    ensures AllInFlightSound(w.db, BeginCode(w, run, code).scrubs)
  {
    if run in w.scrubs && StartCode(w, w.scrubs[run], code).Some? {
      assert InFlightSound(w.db, w.scrubs[run]);
      StartedCodeTells(w, naming, w.scrubs[run], code);
    }
  }

  lemma {:induction false} StartedCodeTells(w: World, naming: Naming, f: InFlight, code: string)
    requires FilesSound(w.db.snapshots, w.disk, naming) && InFlightSound(w.db, f) && StartCode(w, f, code).Some?
    ensures InFlightSound(w.db, StartCode(w, f, code).value)
  {
    var rows := RowsIn(f.due, code);
    assert AcceptedOn(w.db.snapshots, f.coverage[code], code);
    ListingTells(w.db.snapshots, w.disk, naming, f.coverage[code], code, rows);
    RowsInArePhones(w.db, f.due, code);
    assert CodeRunSound(w.db, StartCode(w, f, code).value.current.value, code);
  }

  lemma {:induction false} RowsInArePhones(db: Db, due: seq<DueRow>, code: string)
    requires RowsArePhones(db, due)
    ensures RowsArePhones(db, RowsIn(due, code)) && RowsOn(RowsIn(due, code), code)
  {
    var rows := RowsIn(due, code);
    forall i | 0 <= i < |rows| ensures RowIsPhone(db, rows[i]) && AreaCode(rows[i].phone) == code {
      assert rows[i] in rows;
      var j :| 0 <= j < |due| && due[j] == rows[i];
      assert RowIsPhone(db, due[j]);
    }
  }

  lemma {:induction false} DueArePhones(db: Db, now: Time, codes: set<string>, limit: Option<nat>)
    ensures RowsArePhones(db, DueFor(db, now, codes, limit))
  {
    var read := db.(subscriptions := codes);
    var due := DueAll(read, now, limit);
    forall i | 0 <= i < |due| ensures RowIsPhone(db, due[i]) {
      assert IsDue(read, now, DueIds(read, now, limit)[i]);
    }
  }

  lemma {:induction false} BeginKeeps(w: World, run: Id)
    requires AllInFlightSound(w.db, w.scrubs)
    ensures AllInFlightSound(w.db, BeginScrub(w, run).scrubs)
  {
  }

  lemma {:induction false} CoverKeeps(w: World, run: Id)
    requires AllInFlightSound(w.db, w.scrubs)
    ensures AllInFlightSound(w.db, CoverScrub(w, run).scrubs)
  {
    if run in w.scrubs {
      assert InFlightSound(w.db, w.scrubs[run]);
    }
  }

  lemma {:induction false} DueKeeps(w: World, run: Id, limit: Option<nat>)
    requires AllInFlightSound(w.db, w.scrubs)
    ensures AllInFlightSound(w.db, DueScrub(w, run, limit).scrubs)
  {
    if run in w.scrubs {
      assert InFlightSound(w.db, w.scrubs[run]);
      DueArePhones(w.db, w.now, w.scrubs[run].codes, limit);
    }
  }

  /** The first steps of a scrub touch nothing but what it has in flight. */
  lemma {:induction false} OpeningKeeps(w: World, step: Step)
    requires IsOpening(step) && AllInFlightSound(w.db, w.scrubs)
    ensures Next(w, step) == w.(scrubs := Next(w, step).scrubs) && AllInFlightSound(w.db, Next(w, step).scrubs)
  {
    match step
    case ScrubBegin(run) =>
      assert Next(w, step) == BeginScrub(w, run);
      BeginKeeps(w, run);
    case ScrubCover(run) =>
      assert Next(w, step) == CoverScrub(w, run);
      CoverKeeps(w, run);
    case ScrubDue(run, limit) =>
      assert Next(w, step) == DueScrub(w, run, limit);
      DueKeeps(w, run, limit);
  }

  lemma {:induction false} AssignKeepsStamps(db: Db, now: Time, call: AssignCall, matches: set<Id>, batch: Id)
    ensures StampsKept(db, Assign(db, now, call, matches, batch))
  {
    if IsNewBatch(db, call) {
      SetOwnersKeepStamps(WithBatch(db, now, call, matches, batch), Chosen(db, now, call, matches),
                          call.partner, ContactAssigned, "assigned", Some(batch), now);
    }
  }

  lemma {:induction false} SuppressKeepsStamps(db: Db, now: Time, s: Suppression, owner: Id)
    requires s.id in db.contacts
    ensures StampsKept(db, SuppressAs(db, now, s, owner))
  {
    assert SameStamp(db.contacts[s.id], Flagged(db.contacts[s.id], s.scope));
    assert StampsKept(db, Flag(db, now, s));
  }

  /** The verbs that touch no stamp at all. */
  predicate IsStampless(step: Step) {
    (IsVerb(step) && !step.ClearByHand?) || step.Configure? || step.Ingest? || step.ScrubStop?
  }

  lemma {:induction false} ReturnKeepsStamps(w: World, step: Step)
    requires IsReturn(step)
    ensures StampsKept(w.db, Returned(w, step))
  {
    match step
    case ReclaimStep(partner, reason) =>
      SetOwnersKeepStamps(w.db, Ascending(Holdings(w.db, partner)), HOUSE, ContactReclaimed, reason, None, w.now);
    case ExpiryStep =>
      SetOwnersKeepStamps(w.db, Ascending(DueToExpire(w.db, w.now)), HOUSE, ContactAssignmentExpired, "expired", None, w.now);
    case WonStep =>
      SetOwnersKeepStamps(w.db, Ascending(WonHoldings(w.db)), HOUSE, ContactReclaimed, "won", None, w.now);
  }

  lemma {:induction false} VerbKeepsStamps(w: World, step: Step)
    requires IsStampless(step)
    ensures StampsKept(w.db, Next(w, step).db)
  {
    if IsReturn(step) {
      NextReturns(w, step);
      ReturnKeepsStamps(w, step);
    } else if step.AssignStep? && step.batch !in w.db.batches {
      assert Next(w, step).db == Assign(w.db, w.now, step.call, step.matches, step.batch);
      AssignKeepsStamps(w.db, w.now, step.call, step.matches, step.batch);
    } else if step.SuppressWrite? && SuppressReady(w, step.token) {
      assert Next(w, step) == WriteSuppression(w, step.token);
      SuppressKeepsStamps(w.db, w.now, w.pending[step.token].call, w.pending[step.token].owner);
    } else {
      QuietKeepsStamps(w, step);
    }
  }

  lemma {:induction false} QuietKeepsStamps(w: World, step: Step)
    requires IsStampless(step) && !IsReturn(step)
    requires step.AssignStep? ==> step.batch in w.db.batches
    requires step.SuppressWrite? ==> !SuppressReady(w, step.token)
    ensures StampsKept(w.db, Next(w, step).db)
  {
  }

  lemma {:induction false} TickKeepsStamps(w: World, late: set<Id>, seconds: nat)
    requires AllStamped(w.db, w.now, late)
    ensures AllStamped(w.db, w.now + seconds, late)
  {
    forall id | id in w.db.contacts ensures Stamped(w.db, w.now + seconds, late, id) {
      StampUntouched(w.db, w.db, w.now, w.now + seconds, late, late, id);
    }
  }

  lemma {:induction false} IntakeKeepsStamps(w: World, naming: Naming, late: set<Id>, id: Id, c: Contact)
    requires WorldInv(w, naming, late)
    ensures var w' := Next(w, Intake(id, c));
            AllStamped(w'.db, w.now, late) && AllInFlightSound(w'.db, w.scrubs)
  {
    var w' := Next(w, Intake(id, c));
    AllInFlightStay(w.db, w'.db, w.scrubs);
    forall x | x in w'.db.contacts ensures Stamped(w'.db, w.now, late, x) {
      if x in w.db.contacts {
        StampUntouched(w.db, w'.db, w.now, w.now, late, late, x);
      }
    }
  }

  lemma {:induction false} ScrubStepKeeps(w: World, naming: Naming, late: set<Id>, step: Step)
    requires WorldInv(w, naming, late)
    requires step.ScrubCode? || step.ScrubOne? || step.ScrubDelist?
    ensures var w' := Next(w, step);
            AllStamped(w'.db, w'.now, LateAfter(w, step, late)) && AllInFlightSound(w'.db, w'.scrubs)
  {
    if step.ScrubCode? {
      assert Next(w, step) == BeginCode(w, step.run, step.code);
      ScrubCodeKeeps(w, naming, late, step.run, step.code);
    } else if step.ScrubOne? && RowReady(w, step.run) {
      assert Next(w, step) == WriteRow(w, step.run);
      ScrubOneKeeps(w, naming, late, step.run);
    } else if step.ScrubDelist? && DelistReady(w, step.run) {
      assert Next(w, step) == WriteDelist(w, step.run);
      ScrubDelistKeeps(w, naming, late, step.run);
    } else {
      assert Next(w, step) == w;
    }
  }

  /** Only pulls touch the files and the ledger. */
  lemma {:induction false} FilesUntouched(w: World, step: Step)
    requires !step.Pull?
    ensures Next(w, step).db.snapshots == w.db.snapshots && Next(w, step).disk == w.disk
  {
    if IsVerb(step) && !step.ClearByHand? {
      VerbKeepsStamps(w, step);
      assert Next(w, step) == NextVerb(w, step);
    } else if IsScrubbing(step) {
      assert Next(w, step) == NextScrub(w, step);
    }
  }

  lemma {:induction false} StepKeeps(w: World, naming: Naming, late: set<Id>, step: Step)
    requires WorldInv(w, naming, late) && StepNamed(step, naming)
    ensures WorldInv(Next(w, step), naming, LateAfter(w, step, late))
  {
    StepKeepsCustody(w, step);
    match step
    case Pull(known, uploaders, o, lands) => PullKeeps(w, naming, late, known, uploaders, o, lands);
    case _ =>
      FilesUntouched(w, step);
      OtherStepKeeps(w, naming, late, step);
  }

  lemma {:induction false} OtherStepKeeps(w: World, naming: Naming, late: set<Id>, step: Step)
    requires WorldInv(w, naming, late) && !step.Pull?
    ensures var w' := Next(w, step);
            AllStamped(w'.db, w'.now, LateAfter(w, step, late)) && AllInFlightSound(w'.db, w'.scrubs)
  {
    if IsStampless(step) {
      VerbKeeps(w, late, step, Next(w, step));
    } else if IsOpening(step) {
      OpeningKeeps(w, step);
    } else if IsScrubbing(step) {
      ScrubStepKeeps(w, naming, late, step);
    } else {
      OutsideKeeps(w, naming, late, step);
    }
  }

  lemma {:induction false} OutsideKeeps(w: World, naming: Naming, late: set<Id>, step: Step)
    requires WorldInv(w, naming, late) && (step.Tick? || step.Intake? || step.ClearByHand?)
    ensures var w' := Next(w, step);
            LateAfter(w, step, late) == late && AllStamped(w'.db, w'.now, late) && AllInFlightSound(w'.db, w'.scrubs)
  {
    NotLate(w, step, late);
    if step.Tick? {
      assert Next(w, step) == w.(now := w.now + step.seconds);
      TickKeepsStamps(w, late, step.seconds);
    } else if step.Intake? {
      assert step == Intake(step.id, step.contact);
      IntakeKeepsStamps(w, naming, late, step.id, step.contact);
      assert Next(w, step).now == w.now && Next(w, step).scrubs == w.scrubs;
    } else {
      HandClearKeeps(w, late, step.cleared);
    }
  }

  lemma {:induction false} NotLate(w: World, step: Step, late: set<Id>)
    requires !step.ScrubOne? && !step.ScrubDelist?
    ensures LateAfter(w, step, late) == late
  {
  }

  lemma {:induction false} HandClearKeeps(w: World, late: set<Id>, id: Id)
    requires AllStamped(w.db, w.now, late) && AllInFlightSound(w.db, w.scrubs)
    ensures var w' := Next(w, ClearByHand(id));
            AllStamped(w'.db, w'.now, late) && AllInFlightSound(w'.db, w'.scrubs)
  {
    assert Next(w, ClearByHand(id)) == w.(db := ClearRegistry(w.db, w.now, id, Human, None));
    HandClearKeepsStamps(w.db, w.now, late, id);
    AllInFlightStay(w.db, ClearRegistry(w.db, w.now, id, Human, None), w.scrubs);
  }

  lemma {:induction false} VerbKeeps(w: World, late: set<Id>, step: Step, w': World)
    requires AllStamped(w.db, w.now, late) && AllInFlightSound(w.db, w.scrubs) && w' == Next(w, step)
    requires IsStampless(step)
    ensures AllStamped(w'.db, w'.now, LateAfter(w, step, late)) && AllInFlightSound(w'.db, w'.scrubs)
  {
    VerbKeepsStamps(w, step);
    VerbKeepsRest(w, step, late);
    StampsKeptHold(w.db, w'.db, w.now, late);
    AllInFlightStay(w.db, w'.db, w.scrubs);
    FewerInFlight(w'.db, w.scrubs, w'.scrubs);
  }

  lemma {:induction false} VerbKeepsRest(w: World, step: Step, late: set<Id>)
    requires IsStampless(step)
    ensures var w' := Next(w, step);
            && LateAfter(w, step, late) == late && w'.now == w.now && w'.scrubs.Keys <= w.scrubs.Keys
            && forall run :: run in w'.scrubs ==> w'.scrubs[run] == w.scrubs[run]
  {
    OthersKeepScrubs(w, step);
  }

  lemma {:induction false} FewerInFlight(db: Db, scrubs: map<Id, InFlight>, fewer: map<Id, InFlight>)
    requires AllInFlightSound(db, scrubs) && fewer.Keys <= scrubs.Keys
    requires forall run :: run in fewer ==> fewer[run] == scrubs[run]
    ensures AllInFlightSound(db, fewer)
  {
  }

  lemma {:induction false} InvEverywhere(now: Time, steps: seq<Step>, naming: Naming)
    requires AllStepsNamed(steps, naming)
    ensures WorldInv(Run(Genesis(now), steps), naming, Late(now, steps))
  {
    if steps != [] {
      InvEverywhere(now, steps[..|steps| - 1], naming);
      StepKeeps(Run(Genesis(now), steps[..|steps| - 1]), naming, Late(now, steps[..|steps| - 1]), steps[|steps| - 1]);
    }
  }

  // The theorem.

  /** Everything asked of a row of a sheet but the list's own word. */
  ghost predicate IsInOrder(w: World, partner: Id, row: SheetRow) {
    && row.contact in w.db.contacts
    && var c := w.db.contacts[row.contact];
    && c.owner == partner && c.batch.Some? && c.batch.value in w.db.batches
    && w.db.batches[c.batch.value].partner == partner
    && c.phone.Some? && row.phone == c.phone
    && !c.doNotCall && !c.dncRegistry
    && c.dncCheckedAt.Some? && w.now - DNC_FRESHNESS_DAYS * DAY <= c.dncCheckedAt.value <= w.now
    && c.dncSnapshot.Some?
    && AcceptedOn(w.db.snapshots, c.dncSnapshot.value, AreaCode(c.phone.value))
    && w.db.snapshots[c.dncSnapshot.value].identity.value.date >= DateOf(w.now) - DNC_FRESHNESS_DAYS
  }

  /** What the list that the check names says of the number. */
  ghost predicate ListSays(w: World, row: SheetRow, listed: bool)
    requires row.contact in w.db.contacts
  {
    var c := w.db.contacts[row.contact];
    c.phone.Some? && c.dncSnapshot.Some? && Verdict(w.db.snapshots, c.dncSnapshot.value, National(c.phone.value), listed)
  }

  ghost predicate ByHand(w: World, row: SheetRow)
    requires row.contact in w.db.contacts
  {
    var c := w.db.contacts[row.contact];
    c.dncCheckedAt.Some? && HandCleared(w.db.events, row.contact, c.dncCheckedAt.value)
  }

  /** Everything the law and the contract with the partner ask of one row of a sheet. */
  ghost predicate MayBeCalled(w: World, partner: Id, row: SheetRow) {
    IsInOrder(w, partner, row) && (ByHand(w, row) || ListSays(w, row, false))
  }

  /** Over every run, with any number of scrubs and suppressions in flight, each row of each sheet is in
      order: the lead is the partner's, no flag stands, and the check and the list behind it are inside 31
      days. If no late delisting has touched the contact since its last check, the row may be called: an
      accepted list of the holder, code and date the check names does not hold the number, unless a person
      cleared the flag since the check. If one has, that list does hold the number. */
  lemma {:induction false} SheetRowMayBeCalled(now: Time, steps: seq<Step>, naming: Naming, partner: Id, row: SheetRow)
    requires AllStepsNamed(steps, naming)
    requires row in Sheet(Run(Genesis(now), steps).db, Run(Genesis(now), steps).now, partner)
    ensures var w := Run(Genesis(now), steps);
            && IsInOrder(w, partner, row)
            && (row.contact !in Late(now, steps) ==> MayBeCalled(w, partner, row))
            && (row.contact in Late(now, steps) ==> ListSays(w, row, true))
  {
    InvEverywhere(now, steps, naming);
    var w := Run(Genesis(now), steps);
    RowIsOnSheet(w.db, w.now, partner, row);
    assert ContactSound(w.db, row.contact) && Stamped(w.db, w.now, Late(now, steps), row.contact);
    StampedRow(w, Late(now, steps), partner, row);
  }

  lemma {:induction false} RowIsOnSheet(db: Db, now: Time, partner: Id, row: SheetRow)
    requires row in Sheet(db, now, partner)
    ensures OnSheet(db, partner, row.contact) && DncFresh(db.snapshots, db.contacts[row.contact], now)
    ensures row.phone == db.contacts[row.contact].phone
  {
    assert row.contact in SheetIds(db, partner);
  }

  lemma {:induction false} StampedRow(w: World, late: set<Id>, partner: Id, row: SheetRow)
    requires OnSheet(w.db, partner, row.contact) && DncFresh(w.db.snapshots, w.db.contacts[row.contact], w.now)
    requires row.phone == w.db.contacts[row.contact].phone
    requires ContactSound(w.db, row.contact) && Stamped(w.db, w.now, late, row.contact)
    ensures IsInOrder(w, partner, row)
    ensures row.contact !in late ==> MayBeCalled(w, partner, row)
    ensures row.contact in late ==> ListSays(w, row, true)
  {
  }

  /** Exactly which rows may be called: with one accepted list per holder, code and date, and no hand
      clearance, those of the contacts that no late delisting has touched since their last check. */
  lemma {:induction false} ExactlyTheLate(now: Time, steps: seq<Step>, naming: Naming, partner: Id, row: SheetRow)
    requires AllStepsNamed(steps, naming)
    requires row in Sheet(Run(Genesis(now), steps).db, Run(Genesis(now), steps).now, partner)
    requires row.contact in Run(Genesis(now), steps).db.contacts && !ByHand(Run(Genesis(now), steps), row)
    requires ListsUnique(Run(Genesis(now), steps).db.snapshots)
    ensures MayBeCalled(Run(Genesis(now), steps), partner, row) <==> row.contact !in Late(now, steps)
  {
    SheetRowMayBeCalled(now, steps, naming, partner, row);
    var w := Run(Genesis(now), steps);
    var c := w.db.contacts[row.contact];
    if row.contact in Late(now, steps) {
      NotBoth(w.db.snapshots, c.dncSnapshot.value, National(c.phone.value));
    }
  }

  ghost predicate NoneMeetsFlag(now: Time, steps: seq<Step>) {
    forall i :: 0 <= i < |steps| ==> !MeetsFlag(At(now, steps, i), steps[i])
  }

  lemma {:induction false} NoneIsLate(now: Time, steps: seq<Step>)
    requires NoneMeetsFlag(now, steps)
    ensures Late(now, steps) == {}
  {
    if steps != [] {
      var front := steps[..|steps| - 1];
      assert forall i :: 0 <= i <= |front| ==> front[..i] == steps[..i];
      assert At(now, steps, |front|) == Run(Genesis(now), front);
      forall i | 0 <= i < |front| ensures !MeetsFlag(At(now, front, i), front[i]) {
        assert At(now, front, i) == At(now, steps, i);
      }
      NoneIsLate(now, front);
    }
  }

  /** Over every run in which no delisting meets a standing flag, whatever is in flight, every row of
      every sheet may be called. */
  lemma {:induction false} EverySheetMayBeCalled(now: Time, steps: seq<Step>, naming: Naming, partner: Id)
    requires AllStepsNamed(steps, naming) && NoneMeetsFlag(now, steps)
    ensures var w := Run(Genesis(now), steps);
            forall row :: row in Sheet(w.db, w.now, partner) ==> MayBeCalled(w, partner, row)
  {
    var w := Run(Genesis(now), steps);
    NoneIsLate(now, steps);
    forall row | row in Sheet(w.db, w.now, partner) ensures MayBeCalled(w, partner, row) {
      SheetRowMayBeCalled(now, steps, naming, partner, row);
    }
  }

  /** Where a holder has one accepted list per code and date, the list the check names is the one that
      does not hold the number. */
  lemma {:induction false} NamedListClears(w: World, partner: Id, row: SheetRow)
    requires MayBeCalled(w, partner, row) && !ByHand(w, row) && ListsUnique(w.db.snapshots)
    ensures var c := w.db.contacts[row.contact];
            !Lists(w.db.snapshots, c.dncSnapshot.value, National(c.phone.value))
  {
  }

  // Scrubs that never overlap.

  /** Every scrub begins when no other is in flight. */
  ghost predicate OneAtATime(now: Time, steps: seq<Step>) {
    forall i :: 0 <= i < |steps| && steps[i].ScrubBegin? ==> At(now, steps, i).scrubs == map[]
  }

  /** At most one scrub is in flight, and what it has still to delist is not flagged. */
  ghost predicate NothingOverlaps(w: World) {
    && (forall a, b :: a in w.scrubs && b in w.scrubs ==> a == b)
    && forall run :: DelistReady(w, run) && CodeOf(w, run).delisting.value.id in w.db.contacts ==>
         !w.db.contacts[CodeOf(w, run).delisting.value.id].dncRegistry
  }

  /** No flag is raised. */
  ghost predicate RaisesNone(db: Db, db': Db) {
    forall id :: id in db'.contacts && db'.contacts[id].dncRegistry ==> id in db.contacts && db.contacts[id].dncRegistry
  }

  /** Only a row write makes a delisting ready. */
  lemma {:induction false} OthersDelistNone(w: World, step: Step)
    requires !step.ScrubOne?
    ensures var w' := Next(w, step);
            forall run :: DelistReady(w', run) ==> DelistReady(w, run) && CodeOf(w, run).delisting == CodeOf(w', run).delisting
  {
    if !IsOpening(step) && !step.ScrubCode? && !step.ScrubDelist? {
      OthersKeepScrubs(w, step);
    }
  }

  /** Only a scrub's row raises flags. */
  lemma {:induction false} OthersRaiseNone(w: World, step: Step)
    requires !step.ScrubOne?
    ensures RaisesNone(w.db, Next(w, step).db)
  {
    if IsStampless(step) {
      VerbKeepsStamps(w, step);
    } else if IsScrubbing(step) {
      assert Next(w, step) == NextScrub(w, step);
      ScrubRaisesNone(w, step);
    } else if step.ClearByHand? {
      assert Next(w, step).db == ClearRegistry(w.db, w.now, step.cleared, Human, None);
    } else {
      assert Next(w, step) == NextOutside(w, step);
      OutsideRaisesNone(w, step);
    }
  }

  lemma {:induction false} ScrubRaisesNone(w: World, step: Step)
    requires IsScrubbing(step) && !step.ScrubOne?
    ensures RaisesNone(w.db, NextScrub(w, step).db)
  {
  }

  lemma {:induction false} OutsideRaisesNone(w: World, step: Step)
    requires !IsScrubbing(step) && !IsVerb(step)
    ensures RaisesNone(w.db, NextOutside(w, step).db)
  {
  }

  lemma {:induction false} OthersKeepScrubs(w: World, step: Step)
    requires !IsOpening(step) && !step.ScrubCode? && !step.ScrubOne? && !step.ScrubDelist?
    ensures Next(w, step).scrubs.Keys <= w.scrubs.Keys
    ensures forall run :: run in Next(w, step).scrubs ==> Next(w, step).scrubs[run] == w.scrubs[run]
  {
  }

  lemma {:induction false} OneStillInFlight(w: World, step: Step)
    requires NothingOverlaps(w) && (step.ScrubBegin? ==> w.scrubs == map[])
    ensures forall a, b :: a in Next(w, step).scrubs && b in Next(w, step).scrubs ==> a == b
  {
    assert !step.ScrubBegin? ==> Next(w, step).scrubs.Keys <= w.scrubs.Keys;
  }

  lemma {:induction false} StepOverlapsNothing(w: World, step: Step)
    requires NothingOverlaps(w) && (step.ScrubBegin? ==> w.scrubs == map[])
    ensures NothingOverlaps(Next(w, step)) && !MeetsFlag(w, step)
  {
    var w' := Next(w, step);
    if step.ScrubOne? {
      RowOverlapsNothing(w, step.run);
    } else {
      OthersRaiseNone(w, step);
      OthersDelistNone(w, step);
      OneStillInFlight(w, step);
      forall run | DelistReady(w', run) && CodeOf(w', run).delisting.value.id in w'.db.contacts
        ensures !w'.db.contacts[CodeOf(w', run).delisting.value.id].dncRegistry
      {
        assert DelistReady(w, run) && CodeOf(w, run).delisting == CodeOf(w', run).delisting;
      }
    }
  }

  lemma {:induction false} RowOverlapsNothing(w: World, run: Id)
    requires NothingOverlaps(w)
    ensures NothingOverlaps(Next(w, ScrubOne(run)))
  {
    if RowReady(w, run) {
      var w' := WriteRow(w, run);
      forall other | DelistReady(w', other) && CodeOf(w', other).delisting.value.id in w'.db.contacts
        ensures !w'.db.contacts[CodeOf(w', other).delisting.value.id].dncRegistry
      {
        assert other == run && CodeOf(w', run).delisting == Some(NextRow(w, run));
      }
    }
  }

  lemma {:induction false} OneAtATimeMeetsNoFlag(now: Time, steps: seq<Step>)
    requires OneAtATime(now, steps)
    ensures NothingOverlaps(Run(Genesis(now), steps)) && NoneMeetsFlag(now, steps)
  {
    if steps != [] {
      var front := steps[..|steps| - 1];
      assert forall i :: 0 <= i <= |front| ==> front[..i] == steps[..i];
      assert At(now, steps, |front|) == Run(Genesis(now), front);
      forall i | 0 <= i < |front| ensures At(now, front, i) == At(now, steps, i) && steps[i] == front[i] {
      }
      OneAtATimeMeetsNoFlag(now, front);
      StepOverlapsNothing(Run(Genesis(now), front), steps[|front|]);
      forall i | 0 <= i < |steps| ensures !MeetsFlag(At(now, steps, i), steps[i]) {
        if i < |front| {
          assert !MeetsFlag(At(now, front, i), front[i]);
        }
      }
    }
  }

  /** In particular over every run whose scrubs never overlap. */
  lemma {:induction false} SequentialScrubsAreSafe(now: Time, steps: seq<Step>, naming: Naming, partner: Id)
    requires AllStepsNamed(steps, naming) && OneAtATime(now, steps)
    ensures var w := Run(Genesis(now), steps);
            forall row :: row in Sheet(w.db, w.now, partner) ==> MayBeCalled(w, partner, row)
  {
    OneAtATimeMeetsNoFlag(now, steps);
    EverySheetMayBeCalled(now, steps, naming, partner);
  }

  // What a scrub can meet on disk.

  lemma {:induction false} StoreEverywhere(now: Time, steps: seq<Step>)
    ensures var w := Run(Genesis(now), steps); StoreInv(Store(w.db.snapshots, w.disk))
  {
    if steps != [] {
      var front, step := steps[..|steps| - 1], steps[|steps| - 1];
      var w := Run(Genesis(now), front);
      StoreEverywhere(now, front);
      if step.Pull? {
        assert Next(w, step) == Pulled(w, step.known, step.uploaders, step.offered, step.lands);
        PullKeepsStore(w, step.known, step.uploaders, step.offered, step.lands);
      } else {
        FilesUntouched(w, step);
      }
    }
  }

  lemma {:induction false} PullKeepsStore(w: World, known: nat, uploaders: set<Id>, o: InboxObject, lands: bool)
    requires StoreInv(Store(w.db.snapshots, w.disk))
    ensures var w' := Pulled(w, known, uploaders, o, lands); StoreInv(Store(w'.db.snapshots, w'.disk))
  {
    if known <= |w.db.snapshots| {
      OfferKeeps(Store(w.db.snapshots, w.disk), w.db.snapshots[..known], uploaders, o, lands);
    }
  }

  lemma {:induction false} ListingRaisesNot(snapshots: seq<Snapshot>, disk: map<DiskPath, Archive>, r: Snapshot, areaCode: string, numbers: set<string>)
    requires StoreInv(Store(snapshots, disk))
    ensures !Listing(DirectoryOf(disk, r, areaCode), areaCode, numbers).Raised?
  {
    forall name | name in DirectoryOf(disk, r, areaCode) ensures DirectoryOf(disk, r, areaCode)[name].Member? {
      var path := DiskPath(r.holder, DateOn(r), name);
      assert path in disk && Backed(snapshots, path, disk[path]);
      var i: nat :| Backs(snapshots, i, path, disk[path]);
      assert RowSound(snapshots[i]);
    }
  }

  /** In no reachable world does a scrub die on a file: whatever partners upload and wherever pulls die,
      every file on disk is one that validation has read. */
  lemma {:induction false} NoPassDies(now: Time, steps: seq<Step>, due: seq<DueRow>, codes: seq<string>)
    ensures var w := Run(Genesis(now), steps); !Dies(w.db.snapshots, w.disk, due, codes)
  {
    var w := Run(Genesis(now), steps);
    StoreEverywhere(now, steps);
    forall i | 0 <= i < |codes| ensures !PlanFor(w.db.snapshots, w.disk, RowsIn(due, codes[i]), codes[i]).Die? {
      CodeDiesNot(w.db.snapshots, w.disk, RowsIn(due, codes[i]), codes[i]);
    }
  }

  lemma {:induction false} CodeDiesNot(snapshots: seq<Snapshot>, disk: map<DiskPath, Archive>, rows: seq<DueRow>, code: string)
    requires StoreInv(Store(snapshots, disk))
    ensures !PlanFor(snapshots, disk, rows, code).Die?
  {
    var cover := Newest(snapshots, code);
    if cover.Some? {
      ListingRaisesNot(snapshots, disk, snapshots[cover.value], code, Nationals(rows));
    }
  }

  /** Nor does it refuse one: with one file name per FTC guid, an accepted list can be read if and only if
      its directory holds exactly one file of its area code. */
  lemma {:induction false} ReadableWhen(now: Time, steps: seq<Step>, naming: Naming, k: nat, areaCode: string, numbers: set<string>)
    requires AllStepsNamed(steps, naming) && AcceptedOn(Run(Genesis(now), steps).db.snapshots, k, areaCode)
    ensures var w := Run(Genesis(now), steps);
            var zips := DirectoryOf(w.disk, w.db.snapshots[k], areaCode);
            Listing(zips, areaCode, numbers).Ok? <==> |zips.Keys| == 1
  {
    InvEverywhere(now, steps, naming);
    var w := Run(Genesis(now), steps);
    var zips := DirectoryOf(w.disk, w.db.snapshots[k], areaCode);
    if |zips.Keys| == 1 {
      var name :| name in zips;
      OnlyKey(zips.Keys, name);
      FileIsReadable(w.db.snapshots, w.disk, naming, w.db.snapshots[k], name, areaCode);
      ListingMeetsValidation(zips, name, areaCode, numbers);
    }
  }

  lemma {:induction false} FileIsReadable(snapshots: seq<Snapshot>, disk: map<DiskPath, Archive>, naming: Naming, r: Snapshot, name: FileName, areaCode: string)
    requires FilesSound(snapshots, disk, naming) && name in DirectoryOf(disk, r, areaCode)
    ensures WellFormed(areaCode, DirectoryOf(disk, r, areaCode)[name])
  {
    var path := DiskPath(r.holder, DateOn(r), name);
    var i: nat :| Backs(snapshots, i, path, disk[path]);
    assert RowSound(snapshots[i]) && Follows(naming, snapshots[i].holder, snapshots[i].key.name) && Follows(naming, path.holder, name);
    assert snapshots[i].key.name == name;
  }
}
