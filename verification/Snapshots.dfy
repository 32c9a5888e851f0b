/** Judging uploaded registry files and landing the accepted ones
    (service/dnc_snapshots.py, jobs/dnc_pull.py). */
module Snapshots {
  import opened Types
  import opened Registry

  const SNAPSHOT_MAX_AGE_DAYS := 2

  /** The last component of an inbox key. Ftc is the portal's own shape; one identity can be spelled
      several ways (2026-8-5 and 2026-08-05), which `spelling` tells apart. NoSuchDate has the
      shape but not a calendar date. */
  datatype FileName =
    | Ftc(identity: Identity, spelling: nat)
    | NoSuchDate(text: string)
    | Other(text: string)

  /** What the portal's filename says: the only source of a snapshot's identity. */
  datatype Identity = Identity(date: int, areaCode: string, guid: string)

  datatype ObjectKey = ObjectKey(folder: string, name: FileName)

  datatype InboxObject = InboxObject(key: ObjectKey, partner: Id, uploadedAt: Time, body: Archive)

  datatype Reason = BadFilename | DuplicateGuid | DuplicateContent | StaleFile | BadFormat | ShortFile

  datatype Verdict = Accepted | Rejected(reason: Reason)

  /** A dnc_snapshots row; its id is its position. SHA-256 is taken as injective, so the digest is
      the file itself. */
  datatype Snapshot = Snapshot(
    holder: Id,
    identity: Option<Identity>,
    digest: Archive,
    key: ObjectKey,
    uploadedAt: Time,
    lineCount: Option<nat>,
    verdict: Verdict)

  /** FTC_FILENAME: a name of another shape, or with another area-code field, identifies nothing. */
  function IdentityOf(name: FileName): Option<Identity> {
    if name.Ftc? && IsAreaCode(name.identity.areaCode) then Some(name.identity) else None
  }

  predicate IsAccepted(ledger: seq<Snapshot>, i: nat) {
    i < |ledger| && ledger[i].verdict == Accepted
  }

  predicate AcceptedFor(r: Snapshot, areaCode: string) {
    r.verdict == Accepted && r.identity.Some? && r.identity.value.areaCode == areaCode
  }

  /** The newest accepted snapshot of an area code; among equal dates the latest recorded. */
  function Newest(ledger: seq<Snapshot>, areaCode: string): (r: Option<nat>)
    ensures r.Some? ==> r.value < |ledger| && AcceptedFor(ledger[r.value], areaCode)
    ensures r.Some? ==> forall i :: 0 <= i < |ledger| && AcceptedFor(ledger[i], areaCode) ==>
                          || ledger[i].identity.value.date < ledger[r.value].identity.value.date
                          || (ledger[i].identity.value.date == ledger[r.value].identity.value.date && i <= r.value)
    ensures r.None? ==> forall i :: 0 <= i < |ledger| ==> !AcceptedFor(ledger[i], areaCode)
  {
    if ledger == [] then None else
    var last := |ledger| - 1;
    var r := Newest(ledger[..last], areaCode);
    if AcceptedFor(ledger[last], areaCode)
       && (r.None? || ledger[r.value].identity.value.date <= ledger[last].identity.value.date)
    then Some(last) else r
  }

  /** The earliest row of this holder carrying the FTC's guid, whatever its verdict. */
  function SeenGuid(ledger: seq<Snapshot>, holder: Id, guid: string): (r: Option<nat>)
    ensures r.Some? ==> r.value < |ledger| && HasGuid(ledger[r.value], holder, guid)
    ensures r.Some? ==> forall i :: 0 <= i < r.value ==> !HasGuid(ledger[i], holder, guid)
    ensures r.None? ==> forall i :: 0 <= i < |ledger| ==> !HasGuid(ledger[i], holder, guid)
  {
    if ledger == [] then None else
    var last := |ledger| - 1;
    match SeenGuid(ledger[..last], holder, guid)
    case Some(i) => Some(i)
    case None => if HasGuid(ledger[last], holder, guid) then Some(last) else None
  }

  predicate HasGuid(r: Snapshot, holder: Id, guid: string) {
    r.holder == holder && r.identity.Some? && r.identity.value.guid == guid
  }

  predicate SeenContent(ledger: seq<Snapshot>, holder: Id, content: Archive) {
    exists i :: 0 <= i < |ledger| && ledger[i].holder == holder && ledger[i].digest == content
  }

  /** How one file is judged: an earlier row stands, a new row is written, or the verb raises. */
  datatype Judgement = Existing(index: nat) | New(row: Snapshot) | Raises

  function Judge(ledger: seq<Snapshot>, o: InboxObject): (j: Judgement)
    ensures j.Existing? ==> j.index < |ledger|
  {
    var rejected := Snapshot(o.partner, IdentityOf(o.key.name), o.body, o.key, o.uploadedAt, None, Rejected(BadFilename));
    if o.key.name.NoSuchDate? then Raises else
    match IdentityOf(o.key.name)
    case None => New(rejected)
    case Some(identity) =>
      match SeenGuid(ledger, o.partner, identity.guid)
      case Some(i) =>
        if ledger[i].digest == o.body then Existing(i)
        else New(rejected.(verdict := Rejected(DuplicateGuid)))
      case None =>
        if SeenContent(ledger, o.partner, o.body) then New(rejected.(verdict := Rejected(DuplicateContent)))
        else if DateOf(o.uploadedAt) - identity.date > SNAPSHOT_MAX_AGE_DAYS then
          New(rejected.(verdict := Rejected(StaleFile)))
        else if !WellFormed(identity.areaCode, o.body) then New(rejected.(verdict := Rejected(BadFormat)))
        else
          var counted := rejected.(lineCount := Some(|Lines(o.body.stream)|));
          var prior := Newest(ledger, identity.areaCode);
          if prior.Some? && IsShort(counted.lineCount.value, ledger[prior.value].lineCount)
          then New(counted.(verdict := Rejected(ShortFile)))
          else New(counted.(verdict := Accepted))
  }

  /** Fewer than half the lines of the newest accepted file. */
  predicate IsShort(count: nat, prior: Option<nat>) {
    prior.Some? && 2 * count < prior.value
  }

  // The pull: a pass over the inbox that can stop anywhere.

  datatype DiskPath = DiskPath(holder: Id, date: int, name: FileName)

  /** The ledger table and the directory of working copies. */
  datatype Store = Store(ledger: seq<Snapshot>, disk: map<DiskPath, Archive>)

  predicate Recorded(ledger: seq<Snapshot>, key: ObjectKey) {
    exists i :: 0 <= i < |ledger| && ledger[i].key == key
  }

  /** The accepted row recorded under a key. */
  function AcceptedRow(ledger: seq<Snapshot>, key: ObjectKey): (r: Option<nat>)
    ensures r.Some? ==> IsAccepted(ledger, r.value) && ledger[r.value].key == key
    ensures r.None? ==> forall i :: 0 <= i < |ledger| ==> !(ledger[i].key == key && ledger[i].verdict == Accepted)
  {
    if ledger == [] then None else
    var last := |ledger| - 1;
    if ledger[last].key == key && ledger[last].verdict == Accepted then Some(last)
    else AcceptedRow(ledger[..last], key)
  }

  function DateOn(r: Snapshot): int {
    if r.identity.Some? then r.identity.value.date else 0
  }

  function PathFor(r: Snapshot, name: FileName): DiskPath {
    DiskPath(r.holder, DateOn(r), name)
  }

  /** An accepted file whose copy is gone is fetched again, and landed only if the bytes are the judged ones. */
  function Reland(disk: map<DiskPath, Archive>, r: Snapshot, o: InboxObject): map<DiskPath, Archive> {
    var path := PathFor(r, o.key.name);
    if path in disk || o.body != r.digest then disk else disk[path := o.body]
  }

  /** What one inbox object does. `start` is the ledger the pass read before its first object; a pass
      that dies between recording and landing has `lands` false. */
  function Offer(s: Store, start: seq<Snapshot>, partners: set<Id>, o: InboxObject, lands: bool): Store {
    if Recorded(start, o.key) then
      var row := AcceptedRow(start, o.key);
      if row.Some? && lands then s.(disk := Reland(s.disk, start[row.value], o)) else s
    else if o.partner !in partners then s
    else match Judge(s.ledger, o)
      case Raises => s
      case Existing(i) =>
        if s.ledger[i].verdict == Accepted && lands
        then s.(disk := s.disk[DiskPath(o.partner, DateOn(s.ledger[i]), o.key.name) := o.body]) else s
      case New(row) =>
        var judged := s.(ledger := s.ledger + [row]);
        if row.verdict == Accepted && lands
        then judged.(disk := s.disk[DiskPath(o.partner, DateOn(row), o.key.name) := o.body]) else judged
  }

  predicate Raising(start: seq<Snapshot>, partners: set<Id>, o: InboxObject) {
    !Recorded(start, o.key) && o.partner in partners && o.key.name.NoSuchDate?
  }

  /** How far a pass gets: `whole` objects are finished, and if `midway` the next one is recorded but not landed. */
  datatype Progress = Progress(whole: nat, midway: bool)

  predicate Completes(inbox: seq<InboxObject>, p: Progress) {
    |inbox| <= p.whole
  }

  function Pass(s: Store, start: seq<Snapshot>, partners: set<Id>, inbox: seq<InboxObject>, p: Progress): Store
    decreases |inbox|
  {
    if inbox == [] then s
    else if p.whole == 0 then
      if p.midway then Offer(s, start, partners, inbox[0], false) else s
    else if Raising(start, partners, inbox[0]) then s
    else Pass(Offer(s, start, partners, inbox[0], true), start, partners, inbox[1..], p.(whole := p.whole - 1))
  }

  /** What the report says of one object. */
  datatype Fate = PulledAccepted | PulledRejected | Relanded | AlreadyRecorded | ShaMismatch | UnknownPartner

  function FateOf(s: Store, start: seq<Snapshot>, partners: set<Id>, o: InboxObject): Fate {
    if Recorded(start, o.key) then
      var row := AcceptedRow(start, o.key);
      if row.None? || PathFor(start[row.value], o.key.name) in s.disk then AlreadyRecorded
      else if o.body != start[row.value].digest then ShaMismatch
      else Relanded
    else if o.partner !in partners then UnknownPartner
    else match Judge(s.ledger, o)
      case Existing(i) => PulledFate(s.ledger[i])
      case New(row) => PulledFate(row)
      case Raises => PulledRejected
  }

  function PulledFate(row: Snapshot): Fate {
    if row.verdict == Accepted then PulledAccepted else PulledRejected
  }

  /** The report of a pass that nothing kills: one entry an object, in the order offered; none if the
      pass raises. */
  function Report(s: Store, start: seq<Snapshot>, partners: set<Id>, inbox: seq<InboxObject>): Option<seq<Fate>>
    decreases |inbox|
  {
    if inbox == [] then Some([])
    else if Raising(start, partners, inbox[0]) then None
    else Ahead(FateOf(s, start, partners, inbox[0]),
               Report(Offer(s, start, partners, inbox[0], true), start, partners, inbox[1..]))
  }

  function Ahead(fate: Fate, rest: Option<seq<Fate>>): Option<seq<Fate>> {
    if rest.Some? then Some([fate] + rest.value) else None
  }

  function After(done: seq<Fate>, rest: Option<seq<Fate>>): Option<seq<Fate>> {
    if rest.Some? then Some(done + rest.value) else None
  }

  lemma {:induction false} AfterAhead(done: seq<Fate>, fate: Fate, rest: Option<seq<Fate>>)
    ensures After(done, Ahead(fate, rest)) == After(done + [fate], rest) && After([], rest) == rest
  {
    if rest.Some? {
      assert done + ([fate] + rest.value) == done + [fate] + rest.value;
      assert [] + rest.value == rest.value;
    }
  }

  /** The tables and files as the two verbs update them. */
  class SnapshotStore {
    var ledger: seq<Snapshot>
    var disk: map<DiskPath, Archive>

    ghost function Value(): Store
      reads this
    {
      Store(ledger, disk)
    }

    constructor ()
      ensures Value() == Store([], map[])
    {
      ledger, disk := [], map[];
    }

    /** Judges one file and records the verdict; returns the row that stands for it. */
    method RecordSnapshot(o: InboxObject) returns (row: Option<nat>)
      modifies this`ledger
      ensures match Judge(old(ledger), o)
              case Raises => row == None && ledger == old(ledger)
              case Existing(i) => row == Some(i) && ledger == old(ledger)
              case New(r) => row == Some(|old(ledger)|) && ledger == old(ledger) + [r]
    {
      var name := o.key.name;
      if name.NoSuchDate? {
        return None;
      }
      var rejected := Snapshot(o.partner, IdentityOf(name), o.body, o.key, o.uploadedAt, None, Rejected(BadFilename));
      row := Some(|ledger|);
      if IdentityOf(name).None? {
        ledger := ledger + [rejected];
        return;
      }
      var identity := IdentityOf(name).value;
      var seen := SeenGuid(ledger, o.partner, identity.guid);
      if seen.Some? {
        if ledger[seen.value].digest == o.body {
          return seen;
        }
        ledger := ledger + [rejected.(verdict := Rejected(DuplicateGuid))];
        return;
      }
      if SeenContent(ledger, o.partner, o.body) {
        ledger := ledger + [rejected.(verdict := Rejected(DuplicateContent))];
        return;
      }
      if DateOf(o.uploadedAt) - identity.date > SNAPSHOT_MAX_AGE_DAYS {
        ledger := ledger + [rejected.(verdict := Rejected(StaleFile))];
        return;
      }
      var counted := ValidateAndCount(o.body, identity.areaCode);
      if !counted.Ok? {
        ledger := ledger + [rejected.(verdict := Rejected(BadFormat))];
        return;
      }
      var prior := Newest(ledger, identity.areaCode);
      if prior.Some? && IsShort(counted.value, ledger[prior.value].lineCount) {
        ledger := ledger + [rejected.(lineCount := Some(counted.value), verdict := Rejected(ShortFile))];
        return;
      }
      ledger := ledger + [rejected.(lineCount := Some(counted.value), verdict := Accepted)];
    }

    /** One pass over the inbox, dying where `p` says if that comes before the end. */
    method PullSnapshots(inbox: seq<InboxObject>, partners: set<Id>, p: Progress) returns (report: Option<seq<Fate>>)
      modifies this
      ensures Value() == Pass(old(Value()), old(ledger), partners, inbox, p)
      ensures report == if Completes(inbox, p) then Report(old(Value()), old(ledger), partners, inbox) else None
    {
      var start := ledger;
      var fates: seq<Fate> := [];
      assert inbox[0..] == inbox;
      AfterAhead([], Relanded, Report(Value(), start, partners, inbox));
      var i := 0;
      while i < |inbox| && i < p.whole
        invariant 0 <= i <= |inbox| && i <= p.whole
        invariant Pass(old(Value()), start, partners, inbox, p)
               == Pass(Value(), start, partners, inbox[i..], p.(whole := p.whole - i))
        invariant Report(old(Value()), start, partners, inbox) == After(fates, Report(Value(), start, partners, inbox[i..]))
      {
        var o := inbox[i];
        assert inbox[i..][1..] == inbox[i + 1..];
        if Raising(start, partners, o) {
          return None;
        }
        ghost var before := Value();
        var fate := Take(o, start, partners, true);
        AfterAhead(fates, fate, Report(Value(), start, partners, inbox[i + 1..]));
        fates := fates + [fate];
        i := i + 1;
      }
      if i < |inbox| && p.midway {
        var _ := Take(inbox[i], start, partners, false);
      }
      assert fates + [] == fates;
      report := if i < |inbox| then None else Some(fates);
    }

    method Take(o: InboxObject, start: seq<Snapshot>, partners: set<Id>, lands: bool) returns (fate: Fate)
      modifies this
      ensures Value() == Offer(old(Value()), start, partners, o, lands)
      ensures fate == FateOf(old(Value()), start, partners, o)
    {
      fate := UnknownPartner;
      if Recorded(start, o.key) {
        fate := AlreadyRecorded;
        var row := AcceptedRow(start, o.key);
        if row.Some? && PathFor(start[row.value], o.key.name) !in disk {
          fate := if o.body == start[row.value].digest then Relanded else ShaMismatch;
        }
        if row.Some? && lands {
          disk := Reland(disk, start[row.value], o);
        }
      } else if o.partner in partners {
        var row := RecordSnapshot(o);
        fate := if row.Some? then PulledFate(ledger[row.value]) else PulledRejected;
        if row.Some? && ledger[row.value].verdict == Accepted && lands {
          disk := disk[DiskPath(o.partner, DateOn(ledger[row.value]), o.key.name) := o.body];
        }
      }
    }
  }

  // What holds after any sequence of passes, wherever each one dies.

  ghost predicate KeysDistinct(ledger: seq<Snapshot>) {
    forall i, j :: 0 <= i < j < |ledger| ==> ledger[i].key != ledger[j].key
  }

  /** An accepted row is fully identified by its own file name and its file has the pinned format. */
  ghost predicate RowSound(r: Snapshot) {
    && r.identity == IdentityOf(r.key.name)
    && (r.verdict == Accepted ==>
          && r.identity.Some?
          && WellFormed(r.identity.value.areaCode, r.digest)
          && r.lineCount == Some(|Lines(r.digest.stream)|)
          && DateOf(r.uploadedAt) - r.identity.value.date <= SNAPSHOT_MAX_AGE_DAYS)
  }

  /** The two partial unique indexes of the table: guid and content, per holder, among accepted rows. */
  ghost predicate AcceptedUnique(ledger: seq<Snapshot>) {
    forall i, j :: 0 <= i < j < |ledger| && ledger[i].verdict == Accepted && ledger[j].verdict == Accepted
                   && ledger[i].holder == ledger[j].holder && ledger[i].identity.Some? && ledger[j].identity.Some? ==>
                     ledger[i].identity.value.guid != ledger[j].identity.value.guid && ledger[i].digest != ledger[j].digest
  }

  /** A file on disk holds the judged bytes of an accepted row of its directory, under that row's guid. */
  ghost predicate Backs(ledger: seq<Snapshot>, i: nat, path: DiskPath, content: Archive) {
    && IsAccepted(ledger, i)
    && ledger[i].holder == path.holder && ledger[i].identity.Some?
    && ledger[i].identity.value.date == path.date
    && ledger[i].digest == content
    && IdentityOf(path.name).Some? && path.name.identity.guid == ledger[i].identity.value.guid
  }

  ghost predicate Backed(ledger: seq<Snapshot>, path: DiskPath, content: Archive) {
    exists i: nat :: Backs(ledger, i, path, content)
  }

  ghost predicate LedgerInv(ledger: seq<Snapshot>) {
    && (forall i :: 0 <= i < |ledger| ==> RowSound(ledger[i]))
    && AcceptedUnique(ledger)
  }

  ghost predicate StoreInv(s: Store) {
    && LedgerInv(s.ledger)
    && forall path :: path in s.disk ==> Backed(s.ledger, path, s.disk[path])
  }

  lemma {:induction false} JudgeKeepsLedger(ledger: seq<Snapshot>, o: InboxObject)
    requires LedgerInv(ledger) && Judge(ledger, o).New?
    ensures LedgerInv(ledger + [Judge(ledger, o).row])
  {
    var row := Judge(ledger, o).row;
    assert RowSound(row);
    if row.verdict == Accepted {
      assert forall i :: 0 <= i < |ledger| ==> !HasGuid(ledger[i], o.partner, row.identity.value.guid);
    }
  }

  lemma {:induction false} BackedGrows(ledger: seq<Snapshot>, more: seq<Snapshot>, path: DiskPath, content: Archive)
    requires ledger <= more && Backed(ledger, path, content)
    ensures Backed(more, path, content)
  {
    var i: nat :| Backs(ledger, i, path, content);
    assert Backs(more, i, path, content);
  }

  lemma {:induction false} LandingKeeps(s: Store, i: nat, path: DiskPath, content: Archive)
    requires StoreInv(s) && Backs(s.ledger, i, path, content)
    ensures StoreInv(s.(disk := s.disk[path := content]))
  {
  }

  lemma {:induction false} RecordingKeeps(s: Store, o: InboxObject)
    requires StoreInv(s) && Judge(s.ledger, o).New?
    ensures StoreInv(s.(ledger := s.ledger + [Judge(s.ledger, o).row]))
  {
    var ledger' := s.ledger + [Judge(s.ledger, o).row];
    JudgeKeepsLedger(s.ledger, o);
    forall path | path in s.disk ensures Backed(ledger', path, s.disk[path]) {
      BackedGrows(s.ledger, ledger', path, s.disk[path]);
    }
  }

  lemma {:induction false} OfferKeeps(s: Store, start: seq<Snapshot>, partners: set<Id>, o: InboxObject, lands: bool)
    requires StoreInv(s) && start <= s.ledger
    ensures StoreInv(Offer(s, start, partners, o, lands))
    ensures s.ledger <= Offer(s, start, partners, o, lands).ledger
  {
    if Recorded(start, o.key) {
      var row := AcceptedRow(start, o.key);
      if row.Some? && lands && o.body == start[row.value].digest {
        var r := s.ledger[row.value];
        assert RowSound(r) && r == start[row.value];
        LandingKeeps(s, row.value, PathFor(r, o.key.name), o.body);
      }
    } else if o.partner in partners {
      match Judge(s.ledger, o)
      case Raises =>
      case Existing(i) =>
        if s.ledger[i].verdict == Accepted && lands {
          LandingKeeps(s, i, DiskPath(o.partner, DateOn(s.ledger[i]), o.key.name), o.body);
        }
      case New(row) =>
        RecordingKeeps(s, o);
        var judged := s.(ledger := s.ledger + [row]);
        if row.verdict == Accepted && lands {
          assert RowSound(judged.ledger[|s.ledger|]);
          LandingKeeps(judged, |s.ledger|, DiskPath(o.partner, DateOn(row), o.key.name), o.body);
        }
    }
  }

  lemma {:induction false} PassKeeps(s: Store, start: seq<Snapshot>, partners: set<Id>, inbox: seq<InboxObject>, p: Progress)
    requires StoreInv(s) && start <= s.ledger
    ensures StoreInv(Pass(s, start, partners, inbox, p))
    ensures s.ledger <= Pass(s, start, partners, inbox, p).ledger
    decreases |inbox|
  {
    if inbox != [] {
      OfferKeeps(s, start, partners, inbox[0], p.whole != 0);
      if p.whole != 0 && !Raising(start, partners, inbox[0]) {
        PassKeeps(Offer(s, start, partners, inbox[0], true), start, partners, inbox[1..], p.(whole := p.whole - 1));
      }
    }
  }

  ghost predicate DistinctKeys(inbox: seq<InboxObject>) {
    forall i, j :: 0 <= i < j < |inbox| ==> inbox[i].key != inbox[j].key
  }

  /** No inbox key is judged twice: a pass adds at most one row under each key it was offered. */
  lemma {:induction false} PassKeepsKeys(s: Store, start: seq<Snapshot>, partners: set<Id>, inbox: seq<InboxObject>, p: Progress)
    requires KeysDistinct(s.ledger) && DistinctKeys(inbox)
    requires forall i :: 0 <= i < |inbox| && !Recorded(start, inbox[i].key) ==> !Recorded(s.ledger, inbox[i].key)
    ensures KeysDistinct(Pass(s, start, partners, inbox, p).ledger)
    decreases |inbox|
  {
    if inbox != [] {
      var s' := Offer(s, start, partners, inbox[0], p.whole != 0);
      assert KeysDistinct(s'.ledger);
      forall i | 1 <= i < |inbox| && !Recorded(start, inbox[i].key) ensures !Recorded(s'.ledger, inbox[i].key) {
        assert inbox[0].key != inbox[i].key;
      }
      if p.whole != 0 && !Raising(start, partners, inbox[0]) {
        PassKeepsKeys(s', start, partners, inbox[1..], p.(whole := p.whole - 1));
      }
    }
  }

  datatype PullRun = PullRun(partners: set<Id>, inbox: seq<InboxObject>, progress: Progress)

  function Passes(s: Store, runs: seq<PullRun>): Store {
    if runs == [] then s else
    var before := Passes(s, runs[..|runs| - 1]);
    var r := runs[|runs| - 1];
    Pass(before, before.ledger, r.partners, r.inbox, r.progress)
  }

  /** Over any sequence of passes, each dying anywhere, even between recording and landing: each key
      has at most one ledger row, no accepted row repeats a holder's guid or content, and each file on
      disk holds the judged bytes of an accepted row. */
  lemma {:induction false} AnyPassesAreSound(runs: seq<PullRun>)
    requires forall i :: 0 <= i < |runs| ==> DistinctKeys(runs[i].inbox)
    ensures StoreInv(Passes(Store([], map[]), runs))
    ensures KeysDistinct(Passes(Store([], map[]), runs).ledger)
  {
    if runs != [] {
      AnyPassesAreSound(runs[..|runs| - 1]);
      var before := Passes(Store([], map[]), runs[..|runs| - 1]);
      var r := runs[|runs| - 1];
      PassKeeps(before, before.ledger, r.partners, r.inbox, r.progress);
      PassKeepsKeys(before, before.ledger, r.partners, r.inbox, r.progress);
    }
  }

  // A pass that completes repairs every earlier crash.

  /** The accepted row i has its working copy, with the judged bytes. */
  ghost predicate HasCopy(s: Store, i: nat)
    requires i < |s.ledger|
  {
    var path := PathFor(s.ledger[i], s.ledger[i].key.name);
    path in s.disk && s.disk[path] == s.ledger[i].digest
  }

  ghost predicate CopiesFor(s: Store, key: ObjectKey) {
    forall i: nat :: IsAccepted(s.ledger, i) && s.ledger[i].key == key ==> HasCopy(s, i)
  }

  /** The bytes under every recorded key are the ones that were judged. */
  ghost predicate Unchanged(ledger: seq<Snapshot>, inbox: seq<InboxObject>) {
    forall k, i :: 0 <= k < |inbox| && 0 <= i < |ledger| && ledger[i].key == inbox[k].key ==>
      inbox[k].body == ledger[i].digest
  }

  /** A working copy under an accepted row's own name can only be that row's bytes. */
  lemma {:induction false} CopyIsRight(s: Store, i: nat)
    requires StoreInv(s) && IsAccepted(s.ledger, i) && PathFor(s.ledger[i], s.ledger[i].key.name) in s.disk
    ensures HasCopy(s, i)
  {
    var path := PathFor(s.ledger[i], s.ledger[i].key.name);
    assert RowSound(s.ledger[i]);
    var j: nat :| Backs(s.ledger, j, path, s.disk[path]);
    assert j == i;
  }

  lemma {:induction false} OfferLands(s: Store, start: seq<Snapshot>, partners: set<Id>, o: InboxObject)
    requires StoreInv(s) && KeysDistinct(s.ledger) && start <= s.ledger
    requires Unchanged(s.ledger, [o]) && (!Recorded(start, o.key) ==> !Recorded(s.ledger, o.key))
    ensures CopiesFor(Offer(s, start, partners, o, true), o.key)
  {
    OfferKeeps(s, start, partners, o, true);
    var s' := Offer(s, start, partners, o, true);
    forall i: nat | IsAccepted(s'.ledger, i) && s'.ledger[i].key == o.key ensures HasCopy(s', i) {
      assert RowSound(s'.ledger[i]);
      if Recorded(start, o.key) {
        RecordedLands(s, start, partners, o, i);
      }
    }
  }

  lemma {:induction false} RecordedLands(s: Store, start: seq<Snapshot>, partners: set<Id>, o: InboxObject, i: nat)
    requires StoreInv(s) && KeysDistinct(s.ledger) && start <= s.ledger && Unchanged(s.ledger, [o])
    requires Recorded(start, o.key) && IsAccepted(s.ledger, i) && s.ledger[i].key == o.key
    ensures HasCopy(Offer(s, start, partners, o, true), i)
  {
    var s' := Offer(s, start, partners, o, true);
    OfferKeeps(s, start, partners, o, true);
    RecordedRow(s.ledger, start, o, i);
    assert [o][0].body == s.ledger[i].digest;
    CopyIsRight(s', i);
  }

  lemma {:induction false} RecordedRow(ledger: seq<Snapshot>, start: seq<Snapshot>, o: InboxObject, i: nat)
    requires KeysDistinct(ledger) && start <= ledger && Recorded(start, o.key)
    requires IsAccepted(ledger, i) && ledger[i].key == o.key
    ensures i < |start| && AcceptedRow(start, o.key) == Some(i)
  {
    var k :| 0 <= k < |start| && start[k].key == o.key;
    assert ledger[k].key == o.key && k == i;
  }

  lemma {:induction false} CopiesSurvive(s: Store, start: seq<Snapshot>, partners: set<Id>, o: InboxObject, key: ObjectKey)
    requires StoreInv(s) && start <= s.ledger && CopiesFor(s, key) && key != o.key
    ensures CopiesFor(Offer(s, start, partners, o, true), key)
  {
    OfferKeeps(s, start, partners, o, true);
    var s' := Offer(s, start, partners, o, true);
    forall i: nat | IsAccepted(s'.ledger, i) && s'.ledger[i].key == key ensures HasCopy(s', i) {
      assert IsAccepted(s.ledger, i) && s.ledger[i].key == key;
      CopyIsRight(s', i);
    }
  }

  lemma {:induction false} KeyStaysUnrecorded(s: Store, start: seq<Snapshot>, partners: set<Id>, o: InboxObject, key: ObjectKey)
    requires !Recorded(s.ledger, key) && key != o.key
    ensures !Recorded(Offer(s, start, partners, o, true).ledger, key)
  {
  }

  lemma {:induction false} StillUnchanged(s: Store, start: seq<Snapshot>, partners: set<Id>, inbox: seq<InboxObject>)
    requires inbox != [] && DistinctKeys(inbox) && Unchanged(s.ledger, inbox)
    ensures Unchanged(Offer(s, start, partners, inbox[0], true).ledger, inbox[1..])
  {
  }

  lemma {:induction false} PassRepairs(s: Store, start: seq<Snapshot>, partners: set<Id>, inbox: seq<InboxObject>, p: Progress, done: set<ObjectKey>)
    requires StoreInv(s) && KeysDistinct(s.ledger) && start <= s.ledger && DistinctKeys(inbox)
    requires forall i :: 0 <= i < |inbox| && !Recorded(start, inbox[i].key) ==> !Recorded(s.ledger, inbox[i].key)
    requires Unchanged(s.ledger, inbox) && Completes(inbox, p)
    requires forall i :: 0 <= i < |inbox| ==> !Raising(start, partners, inbox[i]) && inbox[i].key !in done
    requires forall key :: key in done ==> CopiesFor(s, key)
    ensures forall key :: key in done ==> CopiesFor(Pass(s, start, partners, inbox, p), key)
    ensures forall i :: 0 <= i < |inbox| ==> CopiesFor(Pass(s, start, partners, inbox, p), inbox[i].key)
    decreases |inbox|
  {
    if inbox != [] {
      var o := inbox[0];
      var s' := Offer(s, start, partners, o, true);
      assert Unchanged(s.ledger, [o]);
      OfferLands(s, start, partners, o);
      OfferKeeps(s, start, partners, o, true);
      PassKeepsKeys(s, start, partners, [o], p);
      assert s' == Pass(s, start, partners, [o], p);
      StillUnchanged(s, start, partners, inbox);
      forall key | key in done ensures CopiesFor(s', key) {
        CopiesSurvive(s, start, partners, o, key);
      }
      forall i | 0 <= i < |inbox[1..]| && !Recorded(start, inbox[1..][i].key)
        ensures !Recorded(s'.ledger, inbox[1..][i].key)
      {
        KeyStaysUnrecorded(s, start, partners, o, inbox[i + 1].key);
      }
      PassRepairs(s', start, partners, inbox[1..], p.(whole := p.whole - 1), done + {o.key});
      assert forall i :: 1 <= i < |inbox| ==> inbox[i] == inbox[1..][i - 1];
    }
  }

  /** A pass that completes over unchanged bytes leaves every accepted object it was offered with its
      working copy, whatever earlier passes failed to land. */
  lemma {:induction false} CompletePassRepairs(s: Store, partners: set<Id>, inbox: seq<InboxObject>, p: Progress)
    requires StoreInv(s) && KeysDistinct(s.ledger) && DistinctKeys(inbox)
    requires Unchanged(s.ledger, inbox) && Completes(inbox, p)
    requires forall i :: 0 <= i < |inbox| ==> !Raising(s.ledger, partners, inbox[i])
    ensures forall i :: 0 <= i < |inbox| ==> CopiesFor(Pass(s, s.ledger, partners, inbox, p), inbox[i].key)
  {
    PassRepairs(s, s.ledger, partners, inbox, p, {});
  }

  // One impossible date stops everything behind it.

  /** A pass reports, and so completes, if and only if no object it is offered raises. */
  lemma {:induction false} ReportsWhen(s: Store, start: seq<Snapshot>, partners: set<Id>, inbox: seq<InboxObject>)
    ensures Report(s, start, partners, inbox).Some? <==> forall i :: 0 <= i < |inbox| ==> !Raising(start, partners, inbox[i])
    decreases |inbox|
  {
    if inbox != [] && !Raising(start, partners, inbox[0]) {
      ReportsWhen(Offer(s, start, partners, inbox[0], true), start, partners, inbox[1..]);
      assert forall i :: 1 <= i < |inbox| ==> inbox[i] == inbox[1..][i - 1];
    }
  }

  /** What comes after an object that raises might as well not be in the inbox. */
  lemma {:induction false} PassStopsAt(s: Store, start: seq<Snapshot>, partners: set<Id>, inbox: seq<InboxObject>, p: Progress, k: nat)
    requires k < |inbox| && Raising(start, partners, inbox[k])
    ensures Pass(s, start, partners, inbox, p) == Pass(s, start, partners, inbox[..k], p)
    decreases |inbox|
  {
    if k > 0 && p.whole > 0 && !Raising(start, partners, inbox[0]) {
      PassStopsAt(Offer(s, start, partners, inbox[0], true), start, partners, inbox[1..], p.(whole := p.whole - 1), k - 1);
      assert inbox[..k][1..] == inbox[1..][..k - 1];
    }
  }

  /** No row carries a name whose date does not exist. */
  ghost predicate NamesDated(ledger: seq<Snapshot>) {
    forall i :: 0 <= i < |ledger| ==> !ledger[i].key.name.NoSuchDate?
  }

  /** A pass records keys that it is offered, and never one with an impossible date. */
  lemma {:induction false} PassRecords(s: Store, start: seq<Snapshot>, partners: set<Id>, inbox: seq<InboxObject>, p: Progress, key: ObjectKey)
    requires NamesDated(s.ledger) && !Recorded(s.ledger, key) && forall i :: 0 <= i < |inbox| ==> inbox[i].key != key
    ensures var after := Pass(s, start, partners, inbox, p).ledger;
            NamesDated(after) && !Recorded(after, key)
    decreases |inbox|
  {
    if inbox != [] {
      OfferRecords(s, start, partners, inbox[0], p.whole != 0, key);
      if p.whole != 0 && !Raising(start, partners, inbox[0]) {
        PassRecords(Offer(s, start, partners, inbox[0], true), start, partners, inbox[1..], p.(whole := p.whole - 1), key);
      }
    }
  }

  lemma {:induction false} OfferRecords(s: Store, start: seq<Snapshot>, partners: set<Id>, o: InboxObject, lands: bool, key: ObjectKey)
    requires NamesDated(s.ledger) && !Recorded(s.ledger, key) && o.key != key
    ensures var after := Offer(s, start, partners, o, lands).ledger;
            NamesDated(after) && !Recorded(after, key)
  {
  }

  /** The object raises whatever the ledger holds. */
  predicate IsBad(partners: set<Id>, o: InboxObject) {
    o.partner in partners && o.key.name.NoSuchDate?
  }

  ghost predicate IsBehind(r: PullRun, key: ObjectKey) {
    DistinctKeys(r.inbox) && forall j :: 0 <= j < |r.inbox| && r.inbox[j].key == key ==>
      exists k :: 0 <= k < j && IsBad(r.partners, r.inbox[k])
  }

  /** An upload that in every pass comes after one with an impossible date, from whatever known partner,
      is never recorded, however many passes there are. */
  lemma {:induction false} NothingBehindIsRecorded(runs: seq<PullRun>, key: ObjectKey)
    requires forall i :: 0 <= i < |runs| ==> IsBehind(runs[i], key)
    ensures var after := Passes(Store([], map[]), runs).ledger;
            NamesDated(after) && !Recorded(after, key)
  {
    if runs != [] {
      var front, r := runs[..|runs| - 1], runs[|runs| - 1];
      NothingBehindIsRecorded(front, key);
      PassLeavesBehind(Passes(Store([], map[]), front), r, key);
    }
  }

  lemma {:induction false} PassLeavesBehind(before: Store, r: PullRun, key: ObjectKey)
    requires NamesDated(before.ledger) && !Recorded(before.ledger, key) && IsBehind(r, key)
    ensures var after := Pass(before, before.ledger, r.partners, r.inbox, r.progress).ledger;
            NamesDated(after) && !Recorded(after, key)
  {
    if j :| 0 <= j < |r.inbox| && r.inbox[j].key == key {
      var k :| 0 <= k < j && IsBad(r.partners, r.inbox[k]);
      PassStopsAt(before, before.ledger, r.partners, r.inbox, r.progress, k);
      PassRecords(before, before.ledger, r.partners, r.inbox[..k], r.progress, key);
    } else {
      PassRecords(before, before.ledger, r.partners, r.inbox, r.progress, key);
    }
  }

  // A verdict read off the name, the file and the ledger.

  /** The name has the portal's shape, with an area code of three digits. */
  ghost predicate IsNamed(o: InboxObject) {
    && o.key.name.Ftc? && |o.key.name.identity.areaCode| == 3
    && forall i :: 0 <= i < 3 ==> '0' <= o.key.name.identity.areaCode[i] <= '9'
  }

  /** The holder's first row under the file's guid, whatever became of it. */
  ghost predicate IsFirstUnderGuid(ledger: seq<Snapshot>, o: InboxObject, i: nat) {
    && i < |ledger| && IsUnderGuid(ledger[i], o)
    && forall j :: 0 <= j < i ==> !IsUnderGuid(ledger[j], o)
  }

  ghost predicate IsUnderGuid(r: Snapshot, o: InboxObject) {
    IsNamed(o) && r.holder == o.partner && r.identity.Some? && r.identity.value.guid == o.key.name.identity.guid
  }

  /** The area code's accepted list with the latest date; among those of one date, the last recorded. */
  ghost predicate IsCurrent(ledger: seq<Snapshot>, areaCode: string, k: nat) {
    && k < |ledger| && IsListOf(ledger[k], areaCode)
    && forall i :: 0 <= i < |ledger| && IsListOf(ledger[i], areaCode) ==>
         || ledger[i].identity.value.date < ledger[k].identity.value.date
         || (ledger[i].identity.value.date == ledger[k].identity.value.date && i <= k)
  }

  ghost predicate IsListOf(r: Snapshot, areaCode: string) {
    r.verdict.Accepted? && r.identity.Some? && r.identity.value.areaCode == areaCode
  }

  lemma {:induction false} CurrentWhen(ledger: seq<Snapshot>, areaCode: string, k: nat)
    ensures IsCurrent(ledger, areaCode, k) <==> Newest(ledger, areaCode) == Some(k)
  {
    assert forall i :: 0 <= i < |ledger| ==> (AcceptedFor(ledger[i], areaCode) <==> IsListOf(ledger[i], areaCode));
  }

  /** What each rejection says of a file, on its own. */
  ghost predicate HasFault(ledger: seq<Snapshot>, o: InboxObject, fault: Reason) {
    match fault
    case BadFilename => !IsNamed(o)
    case DuplicateGuid => exists i :: 0 <= i < |ledger| && IsUnderGuid(ledger[i], o)
    case DuplicateContent => exists i :: 0 <= i < |ledger| && ledger[i].holder == o.partner && ledger[i].digest == o.body
    case StaleFile => IsNamed(o) && o.uploadedAt / 86400 - o.key.name.identity.date >= 3
    case BadFormat => IsNamed(o) && !WellFormed(o.key.name.identity.areaCode, o.body)
    case ShortFile => IsNamed(o) && o.body.Member? && exists k: nat :: IsFarLonger(ledger, o, k)
  }

  /** The current list of the file's area code has more than twice its lines. */
  ghost predicate IsFarLonger(ledger: seq<Snapshot>, o: InboxObject, k: nat)
    requires IsNamed(o) && o.body.Member?
  {
    IsCurrent(ledger, o.key.name.identity.areaCode, k) && ledger[k].lineCount.Some? && 2 * |Lines(o.body.stream)| < ledger[k].lineCount.value
  }

  const FAULTS: seq<Reason> := [BadFilename, DuplicateGuid, DuplicateContent, StaleFile, BadFormat, ShortFile]

  ghost predicate IsFirstFault(ledger: seq<Snapshot>, o: InboxObject, fault: Reason) {
    exists i :: 0 <= i < |FAULTS| && FAULTS[i] == fault && HasFault(ledger, o, fault)
                && forall j :: 0 <= j < i ==> !HasFault(ledger, o, FAULTS[j])
  }

  /** A row holds what the file and its name say. */
  ghost predicate Describes(row: Snapshot, o: InboxObject) {
    && row.holder == o.partner && row.digest == o.body && row.key == o.key && row.uploadedAt == o.uploadedAt
    && (if IsNamed(o) then row.identity == Some(o.key.name.identity) else row.identity.None?)
    && (row.verdict.Accepted? || row.verdict == Rejected(ShortFile)
        ==> o.body.Member? && row.lineCount == Some(|Lines(o.body.stream)|))
  }

  /** How a file is judged. A date that is none raises; the same bytes under a guid the holder has used stand
      as that row; any other file gets a row of its own, rejected for its first fault or accepted for want of one. */
  lemma {:induction false} JudgedByColumns(ledger: seq<Snapshot>, o: InboxObject)
    ensures Judge(ledger, o).Raises? <==> o.key.name.NoSuchDate?
    ensures Judge(ledger, o).Existing? ==>
              IsFirstUnderGuid(ledger, o, Judge(ledger, o).index) && ledger[Judge(ledger, o).index].digest == o.body
    ensures Judge(ledger, o).New? ==> Describes(Judge(ledger, o).row, o)
    ensures Judge(ledger, o).New? ==>
              match Judge(ledger, o).row.verdict
              case Accepted => forall fault :: !HasFault(ledger, o, fault)
              case Rejected(why) => IsFirstFault(ledger, o, why)
    ensures Judge(ledger, o).New? ==> forall i: nat :: IsFirstUnderGuid(ledger, o, i) ==> ledger[i].digest != o.body
  {
    if IsNamed(o) {
      var identity := o.key.name.identity;
      assert IdentityOf(o.key.name) == Some(identity);
      assert forall i :: 0 <= i < |ledger| ==> (HasGuid(ledger[i], o.partner, identity.guid) <==> IsUnderGuid(ledger[i], o));
      forall k: nat ensures IsCurrent(ledger, identity.areaCode, k) <==> Newest(ledger, identity.areaCode) == Some(k) {
        CurrentWhen(ledger, identity.areaCode, k);
      }
    } else {
      assert IdentityOf(o.key.name).None?;
    }
    JudgedInOrder(ledger, o);
  }

  lemma {:induction false} ShortWhen(ledger: seq<Snapshot>, o: InboxObject)
    requires IsNamed(o) && o.body.Member?
    ensures var prior := Newest(ledger, o.key.name.identity.areaCode);
            HasFault(ledger, o, ShortFile) <==> prior.Some? && IsShort(|Lines(o.body.stream)|, ledger[prior.value].lineCount)
  {
    forall k: nat ensures IsCurrent(ledger, o.key.name.identity.areaCode, k) <==> Newest(ledger, o.key.name.identity.areaCode) == Some(k) {
      CurrentWhen(ledger, o.key.name.identity.areaCode, k);
    }
    var prior := Newest(ledger, o.key.name.identity.areaCode);
    if prior.Some? && IsShort(|Lines(o.body.stream)|, ledger[prior.value].lineCount) {
      assert IsFarLonger(ledger, o, prior.value);
    }
  }

  lemma {:induction false} JudgedInOrder(ledger: seq<Snapshot>, o: InboxObject)
    requires IsNamed(o) ==> IdentityOf(o.key.name) == Some(o.key.name.identity)
    requires !IsNamed(o) ==> IdentityOf(o.key.name).None?
    requires IsNamed(o) ==> forall i :: 0 <= i < |ledger| ==>
               (HasGuid(ledger[i], o.partner, o.key.name.identity.guid) <==> IsUnderGuid(ledger[i], o))
    requires IsNamed(o) ==> forall k: nat :: IsCurrent(ledger, o.key.name.identity.areaCode, k)
                                             <==> Newest(ledger, o.key.name.identity.areaCode) == Some(k)
    ensures Judge(ledger, o).New? ==>
              match Judge(ledger, o).row.verdict
              case Accepted => forall fault :: !HasFault(ledger, o, fault)
              case Rejected(why) => IsFirstFault(ledger, o, why)
  {
    var j := Judge(ledger, o);
    if IsNamed(o) && o.body.Member? {
      ShortWhen(ledger, o);
    }
    if j.New? && j.row.verdict.Rejected? {
      var why := j.row.verdict.reason;
      var i := if why == BadFilename then 0 else if why == DuplicateGuid then 1 else if why == DuplicateContent then 2
               else if why == StaleFile then 3 else if why == BadFormat then 4 else 5;
      assert FAULTS[i] == why;
      assert HasFault(ledger, o, why);
    }
  }

  /** An accepted row of the ledger under the key, as the pass found it at its start: the last such. */
  ghost predicate IsRowUnder(start: seq<Snapshot>, key: ObjectKey, i: nat) {
    && i < |start| && start[i].key == key && start[i].verdict.Accepted?
    && forall j :: i < j < |start| ==> !(start[j].key == key && start[j].verdict.Accepted?)
  }

  lemma {:induction false} RowUnderWhen(start: seq<Snapshot>, key: ObjectKey, i: nat)
    ensures IsRowUnder(start, key, i) <==> AcceptedRow(start, key) == Some(i)
  {
    if start != [] {
      var front, last := start[..|start| - 1], |start| - 1;
      RowUnderWhen(front, key, i);
      assert forall j :: 0 <= j < last ==> start[j] == front[j];
    }
  }

  /** What the pass reports of an object. One recorded before is already there, unless its accepted row lacks
      its copy: then it is landed again, or its bytes are not the judged ones. One of nobody known is skipped;
      any other is pulled, with its verdict. */
  ghost predicate IsFate(s: Store, start: seq<Snapshot>, partners: set<Id>, o: InboxObject, fate: Fate) {
    match fate
    case AlreadyRecorded => IsOld(start, o) && !LacksCopy(s, start, o)
    case Relanded => IsOld(start, o) && LacksCopy(s, start, o) && BytesAreJudged(start, o)
    case ShaMismatch => IsOld(start, o) && LacksCopy(s, start, o) && !BytesAreJudged(start, o)
    case UnknownPartner => !IsOld(start, o) && o.partner !in partners
    case PulledAccepted => !IsOld(start, o) && o.partner in partners && StandsAccepted(s.ledger, o)
    case PulledRejected => !IsOld(start, o) && o.partner in partners && !StandsAccepted(s.ledger, o)
  }

  ghost predicate IsOld(start: seq<Snapshot>, o: InboxObject) {
    exists i :: 0 <= i < |start| && start[i].key == o.key
  }

  ghost predicate LacksCopy(s: Store, start: seq<Snapshot>, o: InboxObject) {
    exists i: nat :: IsRowUnder(start, o.key, i) && PathFor(start[i], o.key.name) !in s.disk
  }

  ghost predicate BytesAreJudged(start: seq<Snapshot>, o: InboxObject) {
    exists i: nat :: IsRowUnder(start, o.key, i) && start[i].digest == o.body
  }

  /** The file stands accepted: it has no fault, or is the bytes of an accepted row under its guid. */
  ghost predicate StandsAccepted(ledger: seq<Snapshot>, o: InboxObject) {
    !o.key.name.NoSuchDate?
    && if exists i: nat :: IsFirstUnderGuid(ledger, o, i) && ledger[i].digest == o.body
       then exists i: nat :: IsFirstUnderGuid(ledger, o, i) && ledger[i].verdict.Accepted?
       else forall fault :: !HasFault(ledger, o, fault)
  }

  lemma {:induction false} StandsWhen(ledger: seq<Snapshot>, o: InboxObject)
    ensures StandsAccepted(ledger, o)
            <==> match Judge(ledger, o)
                 case Existing(i) => ledger[i].verdict == Accepted
                 case New(row) => row.verdict == Accepted
                 case Raises => false
  {
    JudgedByColumns(ledger, o);
  }

  lemma {:induction false} FateByColumns(s: Store, start: seq<Snapshot>, partners: set<Id>, o: InboxObject, fate: Fate)
    ensures IsFate(s, start, partners, o, fate) <==> fate == FateOf(s, start, partners, o)
  {
    StandsWhen(s.ledger, o);
    forall i: nat ensures IsRowUnder(start, o.key, i) <==> AcceptedRow(start, o.key) == Some(i) {
      RowUnderWhen(start, o.key, i);
    }
  }
}
