/** Every run of pulls, scrubs, assignments, suppressions, returns and exports. Any number of scrubs and
    suppressions are in flight at once, each interleaved with everything else between its reads and its
    writes: what a partner can come to hold. */
module Compliance {
  import opened Types
  import opened Registry
  import opened Snapshots
  import opened Custody
  import opened CustodyProofs
  import opened Scrub

  /** The scrub of one code: the hits are known, the rows are still to be written. */
  datatype CodeRun = CodeRun(snapshot: Id, hits: set<string>, rows: seq<DueRow>, delisting: Option<DueRow>)

  /** A scrub opens with three reads: the subscribed codes, the list that covers each, the due contacts. */
  datatype Reading = Subscribed | Covered | Ready

  /** A scrub in flight: what it has read so far, and the code it is writing. */
  datatype InFlight = InFlight(
    codes: set<string>, coverage: map<string, Id>, due: seq<DueRow>, opening: Reading, current: Option<CodeRun>)

  /** A suppression in flight: the call, and the owner it read. */
  datatype Pending = Pending(call: Suppression, owner: Id)

  datatype World = World(
    db: Db, disk: map<DiskPath, Archive>, now: Time, scrubs: map<Id, InFlight>, pending: map<Id, Pending>)

  datatype Step =
    | Tick(seconds: nat)
    | Configure(partners: map<Id, Partner>, subscriptions: set<string>)
    | Intake(id: Id, contact: Contact)
    | Ingest(e: Event)
    | Pull(known: nat, uploaders: set<Id>, offered: InboxObject, lands: bool)
    | ScrubBegin(run: Id)
    | ScrubCover(run: Id)
    | ScrubDue(run: Id, limit: Option<nat>)
    | ScrubCode(run: Id, code: string)
    | ScrubOne(run: Id)
    | ScrubDelist(run: Id)
    | ScrubStop(run: Id)
    | AssignStep(call: AssignCall, matches: set<Id>, batch: Id)
    | ReclaimStep(partner: Id, reason: string)
    | ExpiryStep
    | WonStep
    | RecomputeStep(only: Option<Id>)
    | SuppressRead(token: Id, asked: Suppression)
    | SuppressWrite(token: Id)
    | ClearByHand(cleared: Id)
    | ExportStep(exporter: Id)

  /** A contact as intake creates it: the house's, unassigned, unchecked. */
  predicate IsNewContact(c: Contact) {
    c.owner == HOUSE && c.batch.None? && c.dncCheckedAt.None? && c.dncSnapshot.None? && !c.dncRegistry
  }

  /** What a response feed or a human note may carry: not custody. */
  predicate IsFed(e: Event) {
    e.kind !in OWNERSHIP
  }

  /** A list handed to a scrub writer must come from a free moment of its code run. */
  predicate CodeDone(f: InFlight) {
    f.current.None? || (f.current.value.rows == [] && f.current.value.delisting.None?)
  }

  function Coverage(snapshots: seq<Snapshot>, codes: set<string>): map<string, Id> {
    map code | code in codes && Newest(snapshots, code).Some? :: Newest(snapshots, code).value
  }

  function BeginScrub(w: World, run: Id): World {
    if run in w.scrubs then w
    else w.(scrubs := w.scrubs[run := InFlight(w.db.subscriptions, map[], [], Subscribed, None)])
  }

  function CoverScrub(w: World, run: Id): World {
    if run !in w.scrubs || w.scrubs[run].opening != Subscribed then w else
    var f := w.scrubs[run];
    w.(scrubs := w.scrubs[run := f.(coverage := Coverage(w.db.snapshots, f.codes), opening := Covered)])
  }

  /** The contacts due among the codes that the scrub read as subscribed. */
  function DueFor(db: Db, now: Time, codes: set<string>, limit: Option<nat>): (rows: seq<DueRow>)
    ensures forall i :: 0 <= i < |rows| ==> rows[i].id in db.contacts
  {
    DueAll(db.(subscriptions := codes), now, limit)
  }

  function DueScrub(w: World, run: Id, limit: Option<nat>): World {
    if run !in w.scrubs || w.scrubs[run].opening != Covered then w else
    var f := w.scrubs[run];
    w.(scrubs := w.scrubs[run := f.(due := DueFor(w.db, w.now, f.codes, limit), opening := Ready)])
  }

  ghost function StartCode(w: World, f: InFlight, code: string): Option<InFlight> {
    if f.opening != Ready || !CodeDone(f) || code !in f.coverage || f.coverage[code] >= |w.db.snapshots| then None else
    var rows := RowsIn(f.due, code);
    match Listing(DirectoryOf(w.disk, w.db.snapshots[f.coverage[code]], code), code, Nationals(rows))
    case Ok(hits) => Some(f.(current := Some(CodeRun(f.coverage[code], hits, rows, None))))
    case _ => None
  }

  predicate IsWriting(w: World, run: Id) {
    run in w.scrubs && w.scrubs[run].current.Some?
  }

  function CodeOf(w: World, run: Id): CodeRun
    requires IsWriting(w, run)
  {
    w.scrubs[run].current.value
  }

  predicate RowReady(w: World, run: Id) {
    && IsWriting(w, run) && CodeOf(w, run).delisting.None? && CodeOf(w, run).rows != []
    && CodeOf(w, run).rows[0].id in w.db.contacts
  }

  /** The row whose turn it is, and whether the list has it. */
  function NextRow(w: World, run: Id): DueRow
    requires RowReady(w, run)
  {
    CodeOf(w, run).rows[0]
  }

  predicate IsHit(w: World, run: Id)
    requires RowReady(w, run)
  {
    National(NextRow(w, run).phone) in CodeOf(w, run).hits
  }

  function WithCode(w: World, run: Id, db: Db, code: CodeRun): World
    requires run in w.scrubs
  {
    w.(db := db, scrubs := w.scrubs[run := w.scrubs[run].(current := Some(code))])
  }

  function WriteRow(w: World, run: Id): World
    requires RowReady(w, run)
  {
    var code := CodeOf(w, run);
    var row := NextRow(w, run);
    WithCode(w, run, ApplyRow(w.db, w.now, row, IsHit(w, run), LEDGER_VERSION, Some(code.snapshot)),
             code.(rows := code.rows[1..], delisting := if !IsHit(w, run) && row.listed then Some(row) else None))
  }

  predicate DelistReady(w: World, run: Id) {
    IsWriting(w, run) && CodeOf(w, run).delisting.Some?
  }

  function WriteDelist(w: World, run: Id): World
    requires DelistReady(w, run)
  {
    var code := CodeOf(w, run);
    WithCode(w, run, DelistRow(w.db, w.now, code.delisting.value, Some(code.snapshot)), code.(delisting := None))
  }

  function ReadSuppression(w: World, token: Id, asked: Suppression): World {
    if token in w.pending || SuppressRefusal(w.db, asked).Some? then w
    else w.(pending := w.pending[token := Pending(asked, w.db.contacts[asked.id].owner)])
  }

  predicate SuppressReady(w: World, token: Id) {
    token in w.pending && w.pending[token].call.id in w.db.contacts
  }

  function WriteSuppression(w: World, token: Id): World
    requires SuppressReady(w, token)
  {
    w.(db := SuppressAs(w.db, w.now, w.pending[token].call, w.pending[token].owner), pending := w.pending - {token})
  }

  ghost function BeginCode(w: World, run: Id, code: string): World {
    if run in w.scrubs && StartCode(w, w.scrubs[run], code).Some?
    then w.(scrubs := w.scrubs[run := StartCode(w, w.scrubs[run], code).value]) else w
  }

  function Pulled(w: World, known: nat, uploaders: set<Id>, o: InboxObject, lands: bool): World {
    if known > |w.db.snapshots| then w else
    var s := Offer(Store(w.db.snapshots, w.disk), w.db.snapshots[..known], uploaders, o, lands);
    w.(db := w.db.(snapshots := s.ledger), disk := s.disk)
  }

  /** One step; a step that is not enabled, or whose verb refuses, changes nothing. */
  ghost function Next(w: World, step: Step): World {
    if IsScrubbing(step) then NextScrub(w, step) else if IsVerb(step) then NextVerb(w, step) else NextOutside(w, step)
  }

  predicate IsOpening(step: Step) {
    step.ScrubBegin? || step.ScrubCover? || step.ScrubDue?
  }

  predicate IsScrubbing(step: Step) {
    IsOpening(step) || step.ScrubCode? || step.ScrubOne? || step.ScrubDelist? || step.ScrubStop?
  }

  predicate IsReturn(step: Step) {
    step.ReclaimStep? || step.ExpiryStep? || step.WonStep?
  }

  predicate IsVerb(step: Step) {
    || step.AssignStep? || IsReturn(step) || step.RecomputeStep? || step.SuppressRead? || step.SuppressWrite?
    || step.ClearByHand? || step.ExportStep?
  }

  /** Time, configuration, intake, feeds and uploads. */
  function NextOutside(w: World, step: Step): World
    requires !IsScrubbing(step) && !IsVerb(step)
  {
    match step
    case Tick(seconds) => w.(now := w.now + seconds)
    case Configure(partners, subscriptions) => w.(db := w.db.(partners := partners, subscriptions := subscriptions))
    case Intake(id, c) =>
      if id in w.db.contacts || !IsNewContact(c) then w else w.(db := w.db.(contacts := w.db.contacts[id := c]))
    case Ingest(e) => if IsFed(e) then w.(db := w.db.(events := Append(w.db.events, e))) else w
    case Pull(known, uploaders, o, lands) => Pulled(w, known, uploaders, o, lands)
  }

  ghost function NextScrub(w: World, step: Step): World
    requires IsScrubbing(step)
  {
    match step
    case ScrubBegin(run) => BeginScrub(w, run)
    case ScrubCover(run) => CoverScrub(w, run)
    case ScrubDue(run, limit) => DueScrub(w, run, limit)
    case ScrubCode(run, code) => BeginCode(w, run, code)
    case ScrubOne(run) => if RowReady(w, run) then WriteRow(w, run) else w
    case ScrubDelist(run) => if DelistReady(w, run) then WriteDelist(w, run) else w
    case ScrubStop(run) => w.(scrubs := w.scrubs - {run})
  }

  function NextVerb(w: World, step: Step): World
    requires IsVerb(step)
  {
    match step
    case AssignStep(call, matches, batch) =>
      if batch in w.db.batches then w else w.(db := Assign(w.db, w.now, call, matches, batch))
    case ReclaimStep(_, _) => w.(db := Returned(w, step))
    case ExpiryStep => w.(db := Returned(w, step))
    case WonStep => w.(db := Returned(w, step))
    case RecomputeStep(only) => w.(db := Recompute(w.db, only))
    case SuppressRead(token, asked) => ReadSuppression(w, token, asked)
    case SuppressWrite(token) => if SuppressReady(w, token) then WriteSuppression(w, token) else w
    case ClearByHand(id) => w.(db := ClearRegistry(w.db, w.now, id, Human, None))
    case ExportStep(partner) => w.(db := Exported(w.db, w.now, partner))
  }

  /** The tables after a return. */
  function Returned(w: World, step: Step): Db
    requires IsReturn(step)
  {
    match step
    case ReclaimStep(partner, reason) => Reclaim(w.db, w.now, partner, reason)
    case ExpiryStep => Expire(w.db, w.now)
    case WonStep => TerminateWon(w.db, w.now)
  }

  ghost function Run(w: World, steps: seq<Step>): World {
    if steps == [] then w else Next(Run(w, steps[..|steps| - 1]), steps[|steps| - 1])
  }

  const EMPTY := Db(map[], map[], map[], [], {}, [], [])

  function Genesis(now: Time): World {
    World(EMPTY, map[], now, map[], map[])
  }

  lemma {:induction false} RunSnoc(w: World, steps: seq<Step>, step: Step)
    ensures Run(w, steps + [step]) == Next(Run(w, steps), step)
  {
    assert (steps + [step])[..|steps|] == steps;
  }

  lemma {:induction false} RunOne(w: World, step: Step)
    ensures Run(w, [step]) == Next(w, step)
  {
    assert [step][..0] == [];
  }

  lemma {:induction false} RunConcat(w: World, a: seq<Step>, b: seq<Step>)
    ensures Run(w, a + b) == Run(Run(w, a), b)
  {
    if b == [] {
      assert a + b == a;
    } else {
      assert (a + b)[..|a + b| - 1] == a + b[..|b| - 1];
      RunConcat(w, a, b[..|b| - 1]);
    }
  }

  // Custody holds in every reachable state, interleaved or not.

  lemma {:induction false} IntakeKeeps(db: Db, id: Id, c: Contact, now: Time)
    requires CustodyInv(db, now) && id !in db.contacts && IsNewContact(c)
    ensures Keeps(db, db.(contacts := db.contacts[id := c]), now)
  {
    var db' := db.(contacts := db.contacts[id := c]);
    forall x | x in db'.contacts ensures ContactSound(db', x) {
      if x in db.contacts {
        assert ContactSound(db, x);
      } else {
        forall i | 0 <= i < |db.events| && db.events[i].contact == Some(id) ensures !IsOwnership(db.events[i]) {
          assert EventSound(db, now, db.events[i]);
        }
        NoOwnershipNoOwner(db.events, id);
      }
    }
  }

  lemma {:induction false} NoOwnershipNoOwner(log: seq<Event>, contact: Id)
    requires forall i :: 0 <= i < |log| && log[i].contact == Some(contact) ==> !IsOwnership(log[i])
    ensures CurrentOwner(Timeline(log, contact)) == HOUSE
  {
    if log != [] {
      var front, e := log[..|log| - 1], log[|log| - 1];
      NoOwnershipNoOwner(front, contact);
      assert log == front + [e];
      if e.contact == Some(contact) {
        InsertOwner(Timeline(front, contact), e);
      }
    }
  }

  lemma {:induction false} ColumnsKeep(db: Db, now: Time, db': Db)
    requires CustodyInv(db, now) && db' == db.(partners := db'.partners, subscriptions := db'.subscriptions, snapshots := db'.snapshots)
    ensures Keeps(db, db', now)
  {
    forall id | id in db'.contacts ensures ContactSound(db', id) {
      assert ContactSound(db, id);
    }
  }

  /** Every step keeps custody, whatever else is in flight. */
  lemma {:induction false} StepKeepsCustody(w: World, step: Step)
    requires CustodyInv(w.db, w.now)
    ensures Keeps(w.db, Next(w, step).db, Next(w, step).now)
  {
    if IsReturn(step) {
      ReturnKeepsCustody(w, step);
    } else if IsScrubbing(step) {
      ScrubStepKeepsCustody(w, step);
    } else if step.AssignStep? || step.RecomputeStep? || step.SuppressRead? || step.SuppressWrite? || step.ClearByHand? {
      VerbKeepsCustody(w, step);
    } else {
      WorldKeepsCustody(w, step);
    }
  }

  lemma {:induction false} NextReturns(w: World, step: Step)
    requires IsReturn(step)
    ensures Next(w, step) == w.(db := Returned(w, step))
  {
  }

  lemma {:induction false} ReturnKeepsCustody(w: World, step: Step)
    requires CustodyInv(w.db, w.now) && IsReturn(step)
    ensures Keeps(w.db, Next(w, step).db, Next(w, step).now)
    ensures NoneForbidden(w.db) ==> NoneForbidden(Next(w, step).db)
  {
    NextReturns(w, step);
    ReturnedKeeps(w, step);
  }

  lemma {:induction false} ReturnedKeeps(w: World, step: Step)
    requires CustodyInv(w.db, w.now) && IsReturn(step)
    ensures Keeps(w.db, Returned(w, step), w.now)
    ensures NoneForbidden(w.db) ==> NoneForbidden(Returned(w, step))
  {
    match step
    case ReclaimStep(partner, reason) => ReclaimKeeps(w.db, w.now, partner, reason);
    case ExpiryStep => ExpireKeeps(w.db, w.now);
    case WonStep => TerminateWonKeeps(w.db, w.now);
  }

  lemma {:induction false} VerbKeepsCustody(w: World, step: Step)
    requires CustodyInv(w.db, w.now)
    requires step.AssignStep? || step.RecomputeStep? || step.SuppressRead? || step.SuppressWrite? || step.ClearByHand?
    ensures Keeps(w.db, Next(w, step).db, Next(w, step).now)
  {
    var db := Next(w, step).db;
    assert Next(w, step).now == w.now;
    match step
    case AssignStep(call, matches, batch) =>
      if batch !in w.db.batches {
        assert db == Assign(w.db, w.now, call, matches, batch);
        AssignKeeps(w.db, w.now, call, matches, batch);
      } else {
        assert db == w.db;
      }
    case RecomputeStep(only) =>
      assert db == Recompute(w.db, only);
      RecomputeKeeps(w.db, w.now, only);
    case SuppressRead(_, _) => assert db == w.db;
    case SuppressWrite(token) =>
      if SuppressReady(w, token) {
        assert db == SuppressAs(w.db, w.now, w.pending[token].call, w.pending[token].owner);
        SuppressAsKeeps(w.db, w.now, w.pending[token].call, w.pending[token].owner);
      } else {
        assert db == w.db;
      }
    case ClearByHand(id) =>
      assert db == ClearRegistry(w.db, w.now, id, Human, None);
      ClearKeeps(w.db, w.now, id, Human, None);
  }

  lemma {:induction false} WorldKeepsCustody(w: World, step: Step)
    requires CustodyInv(w.db, w.now)
    requires step.Tick? || step.Configure? || step.Intake? || step.Ingest? || step.Pull? || step.ExportStep?
    ensures Keeps(w.db, Next(w, step).db, Next(w, step).now)
  {
    var w' := Next(w, step);
    assert !step.ExportStep? ==> w' == NextOutside(w, step);
    match step
    case Tick(seconds) =>
      assert w' == w.(now := w.now + seconds);
      TimePasses(w.db, w.now, w.now + seconds);
    case Configure(partners, subscriptions) =>
      assert w' == w.(db := w.db.(partners := partners, subscriptions := subscriptions));
      ColumnsKeep(w.db, w.now, w'.db);
    case Intake(id, c) =>
      if id !in w.db.contacts && IsNewContact(c) {
        assert w' == w.(db := w.db.(contacts := w.db.contacts[id := c]));
        IntakeKeeps(w.db, id, c, w.now);
      } else {
        assert w' == w;
      }
    case Ingest(e) =>
      if IsFed(e) {
        assert w' == w.(db := w.db.(events := Append(w.db.events, e)));
        AsideKeeps(w.db, w'.db, e, w.now);
      } else {
        assert w' == w;
      }
    case Pull(known, uploaders, o, lands) =>
      assert w' == Pulled(w, known, uploaders, o, lands);
      ColumnsKeep(w.db, w.now, w'.db);
    case ExportStep(partner) =>
      assert w' == w.(db := Exported(w.db, w.now, partner));
      ExportKeeps(w.db, w.now, partner);
  }

  lemma {:induction false} ScrubStepKeepsCustody(w: World, step: Step)
    requires CustodyInv(w.db, w.now) && IsScrubbing(step)
    ensures Keeps(w.db, Next(w, step).db, Next(w, step).now)
  {
    if step.ScrubOne? && RowReady(w, step.run) {
      assert Next(w, step) == WriteRow(w, step.run);
      ApplyRowKeeps(w.db, w.now, NextRow(w, step.run), IsHit(w, step.run), LEDGER_VERSION, Some(CodeOf(w, step.run).snapshot));
    } else if step.ScrubDelist? && DelistReady(w, step.run) {
      assert Next(w, step) == WriteDelist(w, step.run);
      var id := CodeOf(w, step.run).delisting.value.id;
      ClearKeeps(w.db, w.now, id, System, ClearKey(id, Some(CodeOf(w, step.run).snapshot)));
    } else {
      assert Next(w, step) == w.(scrubs := Next(w, step).scrubs);
    }
  }

  /** In every reachable state each owner column is what the events confirm, and every lead a partner
      holds is in one of that partner's batches. */
  lemma {:induction false} CustodyEverywhere(now: Time, steps: seq<Step>)
    ensures CustodyInv(Run(Genesis(now), steps).db, Run(Genesis(now), steps).now)
  {
    if steps != [] {
      CustodyEverywhere(now, steps[..|steps| - 1]);
      StepKeepsCustody(Run(Genesis(now), steps[..|steps| - 1]), steps[|steps| - 1]);
    }
  }

  // Forbidden numbers stay home, except through two stale reads.

  /** The row is a hit, and remembers the house as the owner of a contact that has since been assigned. */
  predicate HitSlips(w: World, step: Step) {
    && step.ScrubOne? && RowReady(w, step.run) && IsHit(w, step.run)
    && NextRow(w, step.run).owner == HOUSE && w.db.contacts[NextRow(w, step.run).id].owner != HOUSE
  }

  /** The suppression blocks the voice channel, and read the house as such an owner. */
  predicate SuppressionSlips(w: World, step: Step) {
    && step.SuppressWrite? && SuppressReady(w, step.token) && BlocksVoice(w.pending[step.token].call.scope)
    && w.pending[step.token].owner == HOUSE && w.db.contacts[w.pending[step.token].call.id].owner != HOUSE
  }

  predicate Slips(w: World, step: Step) {
    HitSlips(w, step) || SuppressionSlips(w, step)
  }

  /** One scrub row leaves a listed number with a partner exactly when the row remembers the house as
      the owner of a contact that has since been assigned. */
  lemma {:induction false} StaleRowSlips(db: Db, now: Time, row: DueRow, hit: bool, snapshot: Option<Id>)
    requires NoneForbidden(db) && row.id in db.contacts
    ensures NoneForbidden(ApplyRow(db, now, row, hit, LEDGER_VERSION, snapshot))
            <==> !(hit && row.owner == HOUSE && db.contacts[row.id].owner != HOUSE)
  {
    var db' := ApplyRow(db, now, row, hit, LEDGER_VERSION, snapshot);
    if hit && row.owner == HOUSE && db.contacts[row.id].owner != HOUSE {
      assert row.id in db'.contacts && db'.contacts[row.id].dncRegistry && db'.contacts[row.id].owner != HOUSE;
    }
  }

  /** Of all steps, whatever is in flight, exactly the two stale writes hand a forbidden number to a
      partner. */
  lemma {:induction false} StepForbids(w: World, step: Step)
    requires CustodyInv(w.db, w.now) && NoneForbidden(w.db)
    ensures NoneForbidden(Next(w, step).db) <==> !Slips(w, step)
  {
    match step
    case ScrubOne(run) =>
      if RowReady(w, run) {
        StaleRowSlips(w.db, w.now, NextRow(w, run), IsHit(w, run), Some(CodeOf(w, run).snapshot));
      }
    case SuppressWrite(token) =>
      if SuppressReady(w, token) {
        SuppressAsForbids(w.db, w.now, w.pending[token].call, w.pending[token].owner);
      }
    case AssignStep(call, matches, batch) =>
      if batch !in w.db.batches {
        AssignForbidsNothing(w.db, w.now, call, matches, batch);
      }
    case ReclaimStep(_, _) => ReturnKeepsCustody(w, step);
    case ExpiryStep => ReturnKeepsCustody(w, step);
    case WonStep => ReturnKeepsCustody(w, step);
    case RecomputeStep(only) => RecomputeKeeps(w.db, w.now, only);
    case ClearByHand(id) => ClearKeeps(w.db, w.now, id, Human, None);
    case ScrubDelist(run) =>
      if DelistReady(w, run) {
        var id := CodeOf(w, run).delisting.value.id;
        ClearKeeps(w.db, w.now, id, System, ClearKey(id, Some(CodeOf(w, run).snapshot)));
      }
    case _ => QuietForbidsNothing(w, step);
  }

  /** Steps that hand over no lead and raise no flag. */
  lemma {:induction false} QuietForbidsNothing(w: World, step: Step)
    requires NoneForbidden(w.db)
    requires step.Tick? || step.Configure? || step.Intake? || step.Ingest? || step.Pull? || step.ExportStep?
             || IsOpening(step) || step.ScrubCode? || step.ScrubStop? || step.SuppressRead?
    ensures NoneForbidden(Next(w, step).db)
  {
    if IsScrubbing(step) {
      assert Next(w, step) == NextScrub(w, step);
      assert NextScrub(w, step).db == w.db;
    } else if step.ExportStep? || step.SuppressRead? {
      assert Next(w, step) == NextVerb(w, step);
      assert NextVerb(w, step).db.contacts == w.db.contacts;
    } else {
      assert Next(w, step) == NextOutside(w, step);
      OutsideForbidsNothing(w, step);
    }
  }

  lemma {:induction false} OutsideForbidsNothing(w: World, step: Step)
    requires NoneForbidden(w.db) && !IsScrubbing(step) && !IsVerb(step)
    ensures NoneForbidden(NextOutside(w, step).db)
  {
  }

  /** The world before the i-th step of a run. */
  ghost function At(now: Time, steps: seq<Step>, i: nat): World
    requires i <= |steps|
  {
    Run(Genesis(now), steps[..i])
  }

  ghost predicate NoneSlips(now: Time, steps: seq<Step>) {
    forall i :: 0 <= i < |steps| ==> !Slips(At(now, steps, i), steps[i])
  }

  /** Over every run, scrubs and suppressions interleaved at will: no partner ever holds a do-not-call
      or listed number, at any moment of the run, if and only if no step of it is a stale write. */
  lemma {:induction false} ForbiddenNumbersStayHome(now: Time, steps: seq<Step>)
    ensures (forall i :: 0 <= i <= |steps| ==> NoneForbidden(At(now, steps, i).db)) <==> NoneSlips(now, steps)
  {
    if steps == [] {
      assert At(now, steps, 0) == Genesis(now);
    } else {
      var front := steps[..|steps| - 1];
      ForbiddenNumbersStayHome(now, front);
      assert forall i :: 0 <= i < |steps| ==> steps[..i] == front[..i];
      assert steps[..|steps|] == steps && front[..|front|] == front;
      assert At(now, steps, |front|) == Run(Genesis(now), front) && At(now, steps, |steps|) == Run(Genesis(now), steps);
      FrontOfRun(now, steps);
      CustodyEverywhere(now, front);
      if NoneForbidden(Run(Genesis(now), front).db) {
        StepForbids(Run(Genesis(now), front), steps[|front|]);
      }
    }
  }

  lemma {:induction false} FrontOfRun(now: Time, steps: seq<Step>)
    requires steps != []
    ensures var front := steps[..|steps| - 1];
            && (forall i :: 0 <= i <= |front| ==> At(now, front, i) == At(now, steps, i))
            && (NoneSlips(now, steps) <==> NoneSlips(now, front) && !Slips(Run(Genesis(now), front), steps[|front|]))
  {
    var front := steps[..|steps| - 1];
    assert forall i :: 0 <= i <= |front| ==> front[..i] == steps[..i];
    assert At(now, steps, |front|) == Run(Genesis(now), front);
  }

  // A whole pass is a run of these steps.

  function RowSteps(run: Id, row: DueRow, hits: set<string>): seq<Step> {
    if National(row.phone) !in hits && row.listed then [ScrubOne(run), ScrubDelist(run)] else [ScrubOne(run)]
  }

  function RowsSteps(run: Id, rows: seq<DueRow>, hits: set<string>): seq<Step> {
    if rows == [] then [] else RowsSteps(run, rows[..|rows| - 1], hits) + RowSteps(run, rows[|rows| - 1], hits)
  }

  ghost function CodeSteps(w: World, run: Id, due: seq<DueRow>, code: string): seq<Step> {
    match PlanFor(w.db.snapshots, w.disk, RowsIn(due, code), code)
    case Check(_, hits) => [ScrubCode(run, code)] + RowsSteps(run, RowsIn(due, code), hits)
    case _ => []
  }

  ghost function CodesSteps(w: World, run: Id, due: seq<DueRow>, codes: seq<string>): seq<Step> {
    if codes == [] || PlanFor(w.db.snapshots, w.disk, RowsIn(due, codes[0]), codes[0]).Die? then []
    else CodeSteps(w, run, due, codes[0]) + CodesSteps(w, run, due, codes[1..])
  }

  function OpeningSteps(run: Id, limit: Option<nat>): seq<Step> {
    [ScrubBegin(run), ScrubCover(run), ScrubDue(run, limit)]
  }

  /** dnc_refresh_all with nothing in between. */
  ghost function PassSteps(w: World, run: Id, codes: seq<string>, limit: Option<nat>): seq<Step> {
    OpeningSteps(run, limit) + CodesSteps(w, run, DueAll(w.db, w.now, limit), codes) + [ScrubStop(run)]
  }

  lemma {:induction false} WithCodeTwice(w: World, run: Id, db: Db, code: CodeRun, db': Db, code': CodeRun)
    requires run in w.scrubs
    ensures WithCode(WithCode(w, run, db, code), run, db', code') == WithCode(w, run, db', code')
  {
    assert w.scrubs[run := w.scrubs[run].(current := Some(code))][run := w.scrubs[run].(current := Some(code'))]
           == w.scrubs[run := w.scrubs[run].(current := Some(code'))];
  }

  lemma {:induction false} RowRuns(w: World, run: Id)
    requires RowReady(w, run)
    ensures var code := CodeOf(w, run);
            Run(w, RowSteps(run, NextRow(w, run), code.hits))
            == WithCode(w, run, ScrubRow(w.db, w.now, NextRow(w, run), code.hits, LEDGER_VERSION, Some(code.snapshot)),
                        code.(rows := code.rows[1..]))
  {
    var code := CodeOf(w, run);
    var row := NextRow(w, run);
    RunOne(w, ScrubOne(run));
    assert Next(w, ScrubOne(run)) == WriteRow(w, run);
    if !IsHit(w, run) && row.listed {
      RunSnoc(w, [ScrubOne(run)], ScrubDelist(run));
      assert [ScrubOne(run)] + [ScrubDelist(run)] == [ScrubOne(run), ScrubDelist(run)];
      assert Next(WriteRow(w, run), ScrubDelist(run)) == WriteDelist(WriteRow(w, run), run);
      RowDelists(w, run);
    }
  }

  lemma {:induction false} RowDelists(w: World, run: Id)
    requires RowReady(w, run) && !IsHit(w, run) && NextRow(w, run).listed
    ensures var code, row := CodeOf(w, run), NextRow(w, run);
            DelistReady(WriteRow(w, run), run)
            && WriteDelist(WriteRow(w, run), run)
               == WithCode(w, run, ScrubRow(w.db, w.now, row, code.hits, LEDGER_VERSION, Some(code.snapshot)),
                           code.(rows := code.rows[1..]))
  {
    var code, row := CodeOf(w, run), NextRow(w, run);
    var applied := ApplyRow(w.db, w.now, row, false, LEDGER_VERSION, Some(code.snapshot));
    WithCodeTwice(w, run, applied, code.(rows := code.rows[1..], delisting := Some(row)),
                  DelistRow(applied, w.now, row, Some(code.snapshot)), code.(rows := code.rows[1..]));
  }

  /** The world after some rows of a code: their writes done, the rest still to come. */
  function AfterRows(w: World, run: Id, db: Db, k: nat): World
    requires IsWriting(w, run) && k <= |CodeOf(w, run).rows|
  {
    WithCode(w, run, db, CodeOf(w, run).(rows := CodeOf(w, run).rows[k..]))
  }

  function ScrubbedRow(w: World, run: Id, db: Db, row: DueRow): Db
    requires IsWriting(w, run) && row.id in db.contacts
  {
    ScrubRow(db, w.now, row, CodeOf(w, run).hits, LEDGER_VERSION, Some(CodeOf(w, run).snapshot))
  }

  lemma {:induction false} OneMoreRow(w: World, run: Id, db: Db, k: nat)
    requires IsWriting(w, run) && CodeOf(w, run).delisting.None? && k < |CodeOf(w, run).rows|
    requires CodeOf(w, run).rows[k].id in db.contacts
    ensures var row := CodeOf(w, run).rows[k];
            Run(AfterRows(w, run, db, k), RowSteps(run, row, CodeOf(w, run).hits))
            == AfterRows(w, run, ScrubbedRow(w, run, db, row), k + 1)
  {
    var code := CodeOf(w, run);
    var mid := AfterRows(w, run, db, k);
    assert code.rows[k..][0] == code.rows[k] && code.rows[k..][1..] == code.rows[k + 1..];
    assert CodeOf(mid, run) == code.(rows := code.rows[k..]) && NextRow(mid, run) == code.rows[k];
    RowRuns(mid, run);
    WithCodeTwice(w, run, db, code.(rows := code.rows[k..]), ScrubbedRow(w, run, db, code.rows[k]),
                  code.(rows := code.rows[k + 1..]));
  }

  /** The steps of the first k rows of a code, and the tables after them. */
  function StepsTo(w: World, run: Id, k: nat): seq<Step>
    requires IsWriting(w, run) && k <= |CodeOf(w, run).rows|
  {
    RowsSteps(run, CodeOf(w, run).rows[..k], CodeOf(w, run).hits)
  }

  ghost function ScrubbedTo(w: World, run: Id, k: nat): (db: Db)
    requires IsWriting(w, run) && k <= |CodeOf(w, run).rows| && RowsHere(w.db, CodeOf(w, run).rows)
    ensures db.contacts.Keys == w.db.contacts.Keys
  {
    var code := CodeOf(w, run);
    ScrubRows(w.db, w.now, code.rows[..k], code.hits, LEDGER_VERSION, Some(code.snapshot))
  }

  lemma {:induction false} RowsSnoc(w: World, run: Id, k: nat)
    requires IsWriting(w, run) && 0 < k <= |CodeOf(w, run).rows| && RowsHere(w.db, CodeOf(w, run).rows)
    ensures StepsTo(w, run, k) == StepsTo(w, run, k - 1) + RowSteps(run, CodeOf(w, run).rows[k - 1], CodeOf(w, run).hits)
    ensures ScrubbedTo(w, run, k) == ScrubbedRow(w, run, ScrubbedTo(w, run, k - 1), CodeOf(w, run).rows[k - 1])
  {
    var rows := CodeOf(w, run).rows;
    assert rows[..k][..k - 1] == rows[..k - 1] && rows[..k][k - 1] == rows[k - 1];
  }

  lemma {:induction false} NoRowsRun(w: World, run: Id)
    requires IsWriting(w, run) && RowsHere(w.db, CodeOf(w, run).rows)
    ensures StepsTo(w, run, 0) == [] && AfterRows(w, run, ScrubbedTo(w, run, 0), 0) == w
  {
    assert w.scrubs[run := w.scrubs[run]] == w.scrubs;
    assert CodeOf(w, run).rows[0..] == CodeOf(w, run).rows;
  }

  lemma {:induction false} RowsRun(w: World, run: Id, k: nat)
    requires IsWriting(w, run) && CodeOf(w, run).delisting.None?
    requires k <= |CodeOf(w, run).rows| && RowsHere(w.db, CodeOf(w, run).rows)
    ensures Run(w, StepsTo(w, run, k)) == AfterRows(w, run, ScrubbedTo(w, run, k), k)
  {
    if k == 0 {
      NoRowsRun(w, run);
    } else {
      RowsRun(w, run, k - 1);
      OneMoreRowRuns(w, run, k);
    }
  }

  lemma {:induction false} OneMoreRowRuns(w: World, run: Id, k: nat)
    requires IsWriting(w, run) && CodeOf(w, run).delisting.None?
    requires 0 < k <= |CodeOf(w, run).rows| && RowsHere(w.db, CodeOf(w, run).rows)
    requires Run(w, StepsTo(w, run, k - 1)) == AfterRows(w, run, ScrubbedTo(w, run, k - 1), k - 1)
    ensures Run(w, StepsTo(w, run, k)) == AfterRows(w, run, ScrubbedTo(w, run, k), k)
  {
    RowsSnoc(w, run, k);
    RunConcat(w, StepsTo(w, run, k - 1), RowSteps(run, CodeOf(w, run).rows[k - 1], CodeOf(w, run).hits));
    OneMoreRow(w, run, ScrubbedTo(w, run, k - 1), k - 1);
  }

  /** The run is between codes, and what it read at its start still covers its rows. */
  ghost predicate Between(w: World, run: Id, due: seq<DueRow>) {
    && run in w.scrubs && w.scrubs[run].due == due && w.scrubs[run].opening == Ready
    && CodeDone(w.scrubs[run]) && RowsHere(w.db, due)
    && forall code :: RowsIn(due, code) != [] && Newest(w.db.snapshots, code).Some? ==>
         code in w.scrubs[run].coverage && w.scrubs[run].coverage[code] == Newest(w.db.snapshots, code).value
  }

  /** Only the tables and this run's own progress differ. */
  predicate SameBut(w: World, after: World, run: Id) {
    && run in w.scrubs && run in after.scrubs
    && after == w.(db := after.db, scrubs := w.scrubs[run := after.scrubs[run]])
  }

  lemma {:induction false} CodeRuns(w: World, run: Id, due: seq<DueRow>, code: string)
    requires Between(w, run, due) && PlanFor(w.db.snapshots, w.disk, RowsIn(due, code), code).Check?
    ensures var plan := PlanFor(w.db.snapshots, w.disk, RowsIn(due, code), code);
            var after := Run(w, CodeSteps(w, run, due, code));
            && RowsHere(w.db, RowsIn(due, code))
            && after.db == ScrubRows(w.db, w.now, RowsIn(due, code), plan.hits, LEDGER_VERSION, Some(plan.snapshot))
            && SameBut(w, after, run) && after.db.snapshots == w.db.snapshots && Between(after, run, due)
  {
    var plan := PlanFor(w.db.snapshots, w.disk, RowsIn(due, code), code);
    var rows := RowsIn(due, code);
    RowsInHere(w.db, due, code);
    CodeBegins(w, run, due, code);
    CodeRunsTo(w, run, due, code);
    ScrubRowsSnapshots(w.db, w.now, rows, plan.hits, LEDGER_VERSION, Some(plan.snapshot));
    var db := ScrubRows(w.db, w.now, rows, plan.hits, LEDGER_VERSION, Some(plan.snapshot));
    CodeEnds(w, BeginCode(w, run, code), run, due, db, CodeRun(plan.snapshot, plan.hits, [], None));
  }

  lemma {:induction false} CodeRunsTo(w: World, run: Id, due: seq<DueRow>, code: string)
    requires Between(w, run, due) && PlanFor(w.db.snapshots, w.disk, RowsIn(due, code), code).Check?
    ensures var plan := PlanFor(w.db.snapshots, w.disk, RowsIn(due, code), code);
            var begun := BeginCode(w, run, code);
            && RowsHere(w.db, RowsIn(due, code)) && run in begun.scrubs
            && Run(w, CodeSteps(w, run, due, code))
               == WithCode(begun, run,
                           ScrubRows(w.db, w.now, RowsIn(due, code), plan.hits, LEDGER_VERSION, Some(plan.snapshot)),
                           CodeRun(plan.snapshot, plan.hits, [], None))
  {
    var plan := PlanFor(w.db.snapshots, w.disk, RowsIn(due, code), code);
    var rows := RowsIn(due, code);
    var begun := BeginCode(w, run, code);
    RowsInHere(w.db, due, code);
    CodeBegins(w, run, due, code);
    assert rows[..|rows|] == rows && rows[|rows|..] == [];
    RowsRun(begun, run, |rows|);
    CodeStepsRun(w, run, code, RowsSteps(run, rows, plan.hits));
  }

  lemma {:induction false} CodeStepsRun(w: World, run: Id, code: string, steps: seq<Step>)
    ensures Run(w, [ScrubCode(run, code)] + steps) == Run(BeginCode(w, run, code), steps)
  {
    RunOne(w, ScrubCode(run, code));
    RunConcat(w, [ScrubCode(run, code)], steps);
  }

  lemma {:induction false} CodeBegins(w: World, run: Id, due: seq<DueRow>, code: string)
    requires Between(w, run, due) && PlanFor(w.db.snapshots, w.disk, RowsIn(due, code), code).Check?
    ensures var plan := PlanFor(w.db.snapshots, w.disk, RowsIn(due, code), code);
            var begun := BeginCode(w, run, code);
            && SameBut(w, begun, run) && begun.db == w.db
            && begun.scrubs[run] == w.scrubs[run].(current := Some(CodeRun(plan.snapshot, plan.hits, RowsIn(due, code), None)))
  {
  }

  lemma {:induction false} CodeEnds(w: World, begun: World, run: Id, due: seq<DueRow>, db: Db, code: CodeRun)
    requires Between(w, run, due) && SameBut(w, begun, run)
    requires begun.scrubs[run] == w.scrubs[run].(current := begun.scrubs[run].current)
    requires db.contacts.Keys == w.db.contacts.Keys && db.snapshots == w.db.snapshots
    requires code.rows == [] && code.delisting.None?
    ensures SameBut(w, WithCode(begun, run, db, code), run) && Between(WithCode(begun, run, db, code), run, due)
  {
    assert w.scrubs[run := begun.scrubs[run]][run := begun.scrubs[run].(current := Some(code))]
           == w.scrubs[run := begun.scrubs[run].(current := Some(code))];
  }

  lemma {:induction false} ScrubRowsSnapshots(db: Db, now: Time, rows: seq<DueRow>, hits: set<string>, version: string, snapshot: Option<Id>)
    requires RowsHere(db, rows)
    ensures ScrubRows(db, now, rows, hits, version, snapshot).snapshots == db.snapshots
  {
    if rows != [] {
      ScrubRowsSnapshots(db, now, rows[..|rows| - 1], hits, version, snapshot);
    }
  }

  lemma {:induction false} CodesRun(w: World, run: Id, due: seq<DueRow>, codes: seq<string>)
    requires Between(w, run, due)
    ensures var after := Run(w, CodesSteps(w, run, due, codes));
            SameBut(w, after, run) && after.db == RefreshCodes(w.db, w.disk, w.now, due, codes)
    decreases |codes|
  {
    assert w.scrubs[run := w.scrubs[run]] == w.scrubs;
    if codes != [] {
      var plan := PlanFor(w.db.snapshots, w.disk, RowsIn(due, codes[0]), codes[0]);
      RowsInHere(w.db, due, codes[0]);
      if plan.Skip? {
        assert [] + CodesSteps(w, run, due, codes[1..]) == CodesSteps(w, run, due, codes[1..]);
        CodesRun(w, run, due, codes[1..]);
      } else if plan.Check? {
        var mid := Run(w, CodeSteps(w, run, due, codes[0]));
        CodeRuns(w, run, due, codes[0]);
        CodesRun(mid, run, due, codes[1..]);
        SameSteps(w, mid, run, due, codes[1..]);
        RunConcat(w, CodeSteps(w, run, due, codes[0]), CodesSteps(w, run, due, codes[1..]));
        SameButTwice(w, mid, Run(mid, CodesSteps(mid, run, due, codes[1..])), run);
      }
    }
  }

  lemma {:induction false} SameButTwice(a: World, b: World, c: World, run: Id)
    requires SameBut(a, b, run) && SameBut(b, c, run)
    ensures SameBut(a, c, run)
  {
    assert a.scrubs[run := b.scrubs[run]][run := c.scrubs[run]] == a.scrubs[run := c.scrubs[run]];
  }

  /** The plan of a code depends on the ledger and the files alone. */
  lemma {:induction false} SameSteps(w: World, v: World, run: Id, due: seq<DueRow>, codes: seq<string>)
    requires v.db.snapshots == w.db.snapshots && v.disk == w.disk
    ensures CodesSteps(v, run, due, codes) == CodesSteps(w, run, due, codes)
  {
    if codes != [] {
      SameSteps(w, v, run, due, codes[1..]);
    }
  }

  /** An uninterrupted dnc_refresh_all, which Spine.Tables.DncRefreshAll performs, is a run of these steps:
      so everything proved of all runs holds of it. */
  lemma {:induction false} PassIsARun(w: World, run: Id, codes: seq<string>, limit: Option<nat>)
    requires run !in w.scrubs
    ensures Run(w, PassSteps(w, run, codes, limit)) == w.(db := RefreshAll(w.db, w.disk, w.now, codes, limit))
  {
    var begun := Opened(w, run, limit);
    var steps := CodesSteps(w, run, DueAll(w.db, w.now, limit), codes);
    PassBegins(w, run, limit);
    PassMiddle(w, begun, run, codes, DueAll(w.db, w.now, limit));
    PassRuns(w, begun, run, limit, steps);
    EndOfRun(w, begun, Run(begun, steps), run);
  }

  lemma {:induction false} PassBegins(w: World, run: Id, limit: Option<nat>)
    requires run !in w.scrubs
    ensures var begun := Opened(w, run, limit);
            && Between(begun, run, DueAll(w.db, w.now, limit)) && run in begun.scrubs
            && begun == w.(scrubs := w.scrubs[run := begun.scrubs[run]])
  {
    DueIsCovered(w.db, w.now, limit);
    assert w.db.(subscriptions := w.db.subscriptions) == w.db;
  }

  lemma {:induction false} PassMiddle(w: World, begun: World, run: Id, codes: seq<string>, due: seq<DueRow>)
    requires Between(begun, run, due) && begun == w.(scrubs := begun.scrubs)
    ensures var after := Run(begun, CodesSteps(w, run, due, codes));
            SameBut(begun, after, run) && RowsHere(w.db, due) && after.db == RefreshCodes(w.db, w.disk, w.now, due, codes)
  {
    CodesRun(begun, run, due, codes);
    SameSteps(w, begun, run, due, codes);
  }

  lemma {:induction false} PassRuns(w: World, begun: World, run: Id, limit: Option<nat>, steps: seq<Step>)
    requires run !in w.scrubs && begun == Opened(w, run, limit)
    ensures Run(w, OpeningSteps(run, limit) + steps + [ScrubStop(run)])
            == Run(begun, steps).(scrubs := Run(begun, steps).scrubs - {run})
  {
    OpeningRuns(w, run, limit);
    RunConcat(w, OpeningSteps(run, limit), steps);
    RunSnoc(w, OpeningSteps(run, limit) + steps, ScrubStop(run));
    StopStops(Run(begun, steps), run);
  }

  /** The world once a scrub has done its reads with nothing in between. */
  function Opened(w: World, run: Id, limit: Option<nat>): World {
    w.(scrubs := w.scrubs[run := InFlight(w.db.subscriptions, Coverage(w.db.snapshots, w.db.subscriptions),
                                          DueFor(w.db, w.now, w.db.subscriptions, limit), Ready, None)])
  }

  lemma {:induction false} RunThree(w: World, steps: seq<Step>)
    requires |steps| == 3
    ensures Run(w, steps) == Next(Next(Next(w, steps[0]), steps[1]), steps[2])
  {
    RunOne(w, steps[0]);
    RunSnoc(w, [steps[0]], steps[1]);
    RunSnoc(w, [steps[0]] + [steps[1]], steps[2]);
    assert steps == [steps[0]] + [steps[1]] + [steps[2]];
  }

  lemma {:induction false} OpeningRuns(w: World, run: Id, limit: Option<nat>)
    requires run !in w.scrubs
    ensures Run(w, OpeningSteps(run, limit)) == Opened(w, run, limit)
  {
    RunThree(w, OpeningSteps(run, limit));
    OpensInThree(w, run, limit);
  }

  lemma {:induction false} OpensInThree(w: World, run: Id, limit: Option<nat>)
    requires run !in w.scrubs
    ensures Next(Next(Next(w, ScrubBegin(run)), ScrubCover(run)), ScrubDue(run, limit)) == Opened(w, run, limit)
  {
    var first := BeginScrub(w, run);
    var second := CoverScrub(first, run);
    NextReads(w, run, limit);
    NextReads(first, run, limit);
    NextReads(second, run, limit);
    ThreeReads(w, run, limit);
  }

  lemma {:induction false} NextReads(w: World, run: Id, limit: Option<nat>)
    ensures Next(w, ScrubBegin(run)) == BeginScrub(w, run) && Next(w, ScrubCover(run)) == CoverScrub(w, run)
    ensures Next(w, ScrubDue(run, limit)) == DueScrub(w, run, limit)
  {
  }

  lemma {:induction false} ThreeReads(w: World, run: Id, limit: Option<nat>)
    requires run !in w.scrubs
    ensures DueScrub(CoverScrub(BeginScrub(w, run), run), run, limit) == Opened(w, run, limit)
  {
    var f := InFlight(w.db.subscriptions, map[], [], Subscribed, None);
    var covered := f.(coverage := Coverage(w.db.snapshots, f.codes), opening := Covered);
    var ready := covered.(due := DueFor(w.db, w.now, f.codes, limit), opening := Ready);
    assert w.scrubs[run := f][run := covered] == w.scrubs[run := covered];
    assert w.scrubs[run := covered][run := ready] == w.scrubs[run := ready];
    assert BeginScrub(w, run) == w.(scrubs := w.scrubs[run := f]);
    assert CoverScrub(w.(scrubs := w.scrubs[run := f]), run) == w.(scrubs := w.scrubs[run := covered]);
  }

  lemma {:induction false} StopStops(w: World, run: Id)
    ensures Next(w, ScrubStop(run)) == w.(scrubs := w.scrubs - {run})
  {
  }

  lemma {:induction false} EndOfRun(w: World, begun: World, after: World, run: Id)
    requires run !in w.scrubs && run in begun.scrubs && begun == w.(scrubs := w.scrubs[run := begun.scrubs[run]])
    requires SameBut(begun, after, run)
    ensures after.(scrubs := after.scrubs - {run}) == w.(db := after.db)
  {
    assert after.scrubs - {run} == w.scrubs;
  }

  lemma {:induction false} DueIsCovered(db: Db, now: Time, limit: Option<nat>)
    ensures forall code :: RowsIn(DueAll(db, now, limit), code) != [] && Newest(db.snapshots, code).Some? ==>
              code in Coverage(db.snapshots, db.subscriptions)
              && Coverage(db.snapshots, db.subscriptions)[code] == Newest(db.snapshots, code).value
  {
    forall code | RowsIn(DueAll(db, now, limit), code) != [] ensures code in db.subscriptions {
      var row := RowsIn(DueAll(db, now, limit), code)[0];
      assert row in RowsIn(DueAll(db, now, limit), code);
      RowIsSubscribed(db, now, limit, row);
    }
  }

  lemma {:induction false} RowIsSubscribed(db: Db, now: Time, limit: Option<nat>, row: DueRow)
    requires row in DueAll(db, now, limit)
    ensures AreaCode(row.phone) in db.subscriptions
  {
    var due, ids := DueAll(db, now, limit), DueIds(db, now, limit);
    var i :| 0 <= i < |due| && due[i] == row;
    assert ids[i] in ids;
    assert IsDue(db, now, ids[i]) && row == RowOf(db, ids[i]);
  }

  /** A suppression whose write follows its read at once is Custody.Suppress. */
  lemma {:induction false} ReadThenWriteSuppresses(w: World, token: Id, s: Suppression)
    requires token !in w.pending
    ensures Next(Next(w, SuppressRead(token, s)), SuppressWrite(token)) == w.(db := Suppress(w.db, w.now, s))
  {
    var read := Next(w, SuppressRead(token, s));
    assert read == NextVerb(w, SuppressRead(token, s)) == ReadSuppression(w, token, s);
    assert Next(read, SuppressWrite(token)) == NextVerb(read, SuppressWrite(token));
    if SuppressRefusal(w.db, s).None? {
      assert SuppressReady(read, token);
      assert read.pending - {token} == w.pending;
    }
  }
}
