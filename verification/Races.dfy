/** Three runs that the database allows, step by step: a delisting that comes too late, a scrub row and a
    suppression that remember an owner of the past. */
module Races {
  import opened Types
  import opened Derivation
  import opened Registry
  import opened Snapshots
  import opened Custody
  import opened CustodyProofs
  import opened Scrub
  import opened Compliance
  import opened SafeHarbor

  const LEAD: Id := 7
  const BUYER: Id := 2
  const BATCH: Id := 9
  const CODE := "805"
  const PHONE := "+18055550100"
  const NUMBER := "8055550100"
  const LISTED := "5550100"
  const ANOTHER := "5550199"

  lemma {:induction false} PhoneParts()
    ensures National(PHONE) == NUMBER && AreaCode(PHONE) == CODE && NUMBER == CODE + LISTED && NUMBER != CODE + ANOTHER
    ensures IsAreaCode(CODE) && IsLocal(LISTED) && IsLocal(ANOTHER)
  {
    assert PHONE[..2] == "+1" && PHONE[2..] == NUMBER && PHONE[2..5] == CODE;
    assert (CODE + ANOTHER)[8] == '9' && NUMBER[8] == '0';
  }

  // The lists the buyer uploads: one number each, one list a day.

  datatype List = List(date: nat, holdsLead: bool)

  function LocalOf(l: List): string {
    if l.holdsLead then LISTED else ANOTHER
  }

  function GuidOf(l: List): string {
    seq(l.date, _ => 'g')
  }

  function BodyOf(l: List): Archive {
    Member(GuidOf(l), Print(CODE, [LocalOf(l)]))
  }

  function NameOf(l: List): FileName {
    Ftc(Identity(l.date, CODE, GuidOf(l)), 0)
  }

  function ObjectOf(l: List): InboxObject {
    InboxObject(ObjectKey("", NameOf(l)), BUYER, l.date * DAY, BodyOf(l))
  }

  function RowFor(l: List): Snapshot {
    Snapshot(BUYER, Some(Identity(l.date, CODE, GuidOf(l))), BodyOf(l), ObjectKey("", NameOf(l)), l.date * DAY, Some(1), Accepted)
  }

  function PathOf(l: List): DiskPath {
    DiskPath(BUYER, l.date, NameOf(l))
  }

  function Ledger(lists: seq<List>): (r: seq<Snapshot>)
    ensures |r| == |lists| && forall i :: 0 <= i < |r| ==> r[i] == RowFor(lists[i])
  {
    if lists == [] then [] else Ledger(lists[..|lists| - 1]) + [RowFor(lists[|lists| - 1])]
  }

  function Disk(lists: seq<List>): (r: map<DiskPath, Archive>)
    ensures forall p :: p in r <==> exists i :: 0 <= i < |lists| && p == PathOf(lists[i])
  {
    if lists == [] then map[] else
    var front := lists[..|lists| - 1];
    assert forall i :: 0 <= i < |front| ==> front[i] == lists[i];
    Disk(front)[PathOf(lists[|lists| - 1]) := BodyOf(lists[|lists| - 1])]
  }

  ghost predicate Daily(lists: seq<List>) {
    forall i, j :: 0 <= i < j < |lists| ==> lists[i].date < lists[j].date
  }

  lemma {:induction false} GuidsDiffer(a: List, b: List)
    requires a.date != b.date
    ensures GuidOf(a) != GuidOf(b)
  {
    assert |GuidOf(a)| == a.date && |GuidOf(b)| == b.date;
  }

  lemma {:induction false} BodyReads(l: List)
    ensures WellFormed(CODE, BodyOf(l)) && |Lines(BodyOf(l).stream)| == 1
    ensures Numbers(CODE, BodyOf(l)) == {CODE + LocalOf(l)}
    ensures NUMBER in Numbers(CODE, BodyOf(l)) <==> l.holdsLead
  {
    PhoneParts();
    PrintedLines(CODE, [LocalOf(l)]);
    PrintThenRead(CODE, [LocalOf(l)], GuidOf(l));
  }

  /** Each list is accepted on its day. */
  lemma {:induction false} IsAcceptedNew(lists: seq<List>, l: List)
    requires Daily(lists + [l])
    ensures Judge(Ledger(lists), ObjectOf(l)) == New(RowFor(l))
    ensures !Recorded(Ledger(lists), ObjectOf(l).key)
  {
    GuidIsNew(lists, l);
    IsJudgedNew(Ledger(lists), l);
  }

  /** Nothing in the ledger has its guid or its bytes, and every list before it is as short. */
  lemma {:induction false} IsJudgedNew(ledger: seq<Snapshot>, l: List)
    requires forall i :: 0 <= i < |ledger| ==> ledger[i].identity.Some? && ledger[i].lineCount == Some(1)
    requires forall i :: 0 <= i < |ledger| ==> ledger[i].identity.value.guid != GuidOf(l) && ledger[i].digest != BodyOf(l)
    ensures Judge(ledger, ObjectOf(l)) == New(RowFor(l))
  {
    PhoneParts();
    BodyReads(l);
    assert IdentityOf(ObjectOf(l).key.name) == Some(Identity(l.date, CODE, GuidOf(l)));
    assert SeenGuid(ledger, BUYER, GuidOf(l)).None? && !SeenContent(ledger, BUYER, BodyOf(l));
    assert DateOf(l.date * DAY) == l.date;
  }

  lemma {:induction false} GuidIsNew(lists: seq<List>, l: List)
    requires Daily(lists + [l])
    ensures forall i :: 0 <= i < |lists| ==> GuidOf(lists[i]) != GuidOf(l) && lists[i].date < l.date
  {
    forall i | 0 <= i < |lists| ensures GuidOf(lists[i]) != GuidOf(l) && lists[i].date < l.date {
      assert (lists + [l])[i].date < (lists + [l])[|lists|].date;
      GuidsDiffer(lists[i], l);
    }
  }

  lemma {:induction false} NewestIsLast(lists: seq<List>)
    requires Daily(lists) && lists != []
    ensures Newest(Ledger(lists), CODE) == Some(|lists| - 1)
  {
    var r := Newest(Ledger(lists), CODE);
    assert AcceptedFor(Ledger(lists)[|lists| - 1], CODE);
    assert Ledger(lists)[r.value] == RowFor(lists[r.value]);
  }

  lemma {:induction false} DiskAt(lists: seq<List>, k: nat)
    requires Daily(lists) && k < |lists|
    ensures PathOf(lists[k]) in Disk(lists) && Disk(lists)[PathOf(lists[k])] == BodyOf(lists[k])
  {
    var front, last := lists[..|lists| - 1], lists[|lists| - 1];
    assert Disk(lists) == Disk(front)[PathOf(last) := BodyOf(last)];
    if k < |front| {
      assert front[k] == lists[k];
      DiskAt(front, k);
      assert lists[k].date < last.date;
      assert PathOf(lists[k]) != PathOf(last);
    }
  }

  lemma {:induction false} OneListADay(lists: seq<List>, k: nat, p: DiskPath)
    requires Daily(lists) && k < |lists| && p in Disk(lists) && p.date == lists[k].date
    ensures p == PathOf(lists[k])
  {
    var i :| 0 <= i < |lists| && p == PathOf(lists[i]);
    assert i == k;
  }

  /** The directory of a list's day holds that list alone. */
  lemma {:induction false} OneFileADay(lists: seq<List>, k: nat)
    requires Daily(lists) && k < |lists|
    ensures Directory(Disk(lists), BUYER, lists[k].date, CODE) == map[NameOf(lists[k]) := BodyOf(lists[k])]
  {
    PathParts(lists[k]);
    DiskAt(lists, k);
    forall p | p in Disk(lists) && p.date == lists[k].date ensures p == PathOf(lists[k]) {
      OneListADay(lists, k, p);
    }
    OnlyFile(Disk(lists), PathOf(lists[k]));
  }

  lemma {:induction false} PathParts(l: List)
    ensures var path := PathOf(l);
            && path.holder == BUYER && path.date == l.date && path.name == NameOf(l)
            && IdentityOf(path.name).Some? && path.name.identity.areaCode == CODE
  {
    PhoneParts();
  }

  lemma {:induction false} OnlyFile(disk: map<DiskPath, Archive>, path: DiskPath)
    requires path in disk && forall p :: p in disk && p.date == path.date ==> p == path
    requires path.holder == BUYER && IdentityOf(path.name).Some? && path.name.identity.areaCode == CODE
    ensures Directory(disk, BUYER, path.date, CODE) == map[path.name := disk[path]]
  {
    var directory := Directory(disk, BUYER, path.date, CODE);
    forall name ensures name in directory <==> name == path.name {
      if name in directory {
        var p :| p in disk && p.holder == BUYER && p.date == path.date && p.name == name;
      }
    }
  }

  // The scene: one lead, one buyer, some lists, some scrubs.

  function Lead(): Contact {
    Contact(Some(PHONE), false, HOUSE, None, Prospect, false, false, false, false, false, None, None)
  }

  const BUYERS: map<Id, Partner> := map[BUYER := Partner(true, None, None)]

  /** Everything that matters of a world but the log. */
  ghost predicate Scene(w: World, c: Contact, lists: seq<List>, now: Time, scrubs: map<Id, InFlight>, pending: map<Id, Pending>) {
    && w.db.contacts == map[LEAD := c] && w.db.batches == map[] && w.db.partners == BUYERS
    && w.db.subscriptions == {CODE} && w.db.tombstones == []
    && Daily(lists) && w.db.snapshots == Ledger(lists) && w.disk == Disk(lists)
    && w.now == now && w.scrubs == scrubs && w.pending == pending
  }

  function Opening(): seq<Step> {
    [Configure(BUYERS, {CODE}), Intake(LEAD, Lead())]
  }

  lemma {:induction false} Opens()
    ensures Scene(Run(Genesis(0), Opening()), Lead(), [], 0, map[], map[])
  {
    var steps := [Configure(BUYERS, {CODE})];
    RunSnoc(Genesis(0), [], Configure(BUYERS, {CODE}));
    assert [] + steps == steps;
    RunSnoc(Genesis(0), steps, Intake(LEAD, Lead()));
    assert steps + [Intake(LEAD, Lead())] == Opening();
  }

  function Upload(lists: seq<List>, l: List): Step {
    Pull(|lists|, {BUYER}, ObjectOf(l), true)
  }

  lemma {:induction false} Uploads(w: World, c: Contact, lists: seq<List>, scrubs: map<Id, InFlight>, pending: map<Id, Pending>, l: List, now: Time)
    requires Scene(w, c, lists, now, scrubs, pending) && Daily(lists + [l])
    ensures Scene(Next(w, Upload(lists, l)), c, lists + [l], now, scrubs, pending)
  {
    IsAcceptedNew(lists, l);
    UploadsAs(w, lists, l);
    assert (lists + [l])[..|lists|] == lists;
    assert Ledger(lists + [l]) == Ledger(lists) + [RowFor(l)] && Disk(lists + [l]) == Disk(lists)[PathOf(l) := BodyOf(l)];
  }

  lemma {:induction false} UploadsAs(w: World, lists: seq<List>, l: List)
    requires |w.db.snapshots| == |lists| && Judge(w.db.snapshots, ObjectOf(l)) == New(RowFor(l))
    requires !Recorded(w.db.snapshots, ObjectOf(l).key)
    ensures Next(w, Upload(lists, l))
            == w.(db := w.db.(snapshots := w.db.snapshots + [RowFor(l)]), disk := w.disk[PathOf(l) := BodyOf(l)])
  {
    assert w.db.snapshots[..|lists|] == w.db.snapshots;
  }

  lemma {:induction false} Ticks(w: World, c: Contact, lists: seq<List>, scrubs: map<Id, InFlight>, pending: map<Id, Pending>, now: Time, seconds: nat)
    requires Scene(w, c, lists, now, scrubs, pending)
    ensures Scene(Next(w, Tick(seconds)), c, lists, now + seconds, scrubs, pending)
  {
  }

  // Scrubs of the lead.

  function RowNow(c: Contact): DueRow {
    DueRow(LEAD, PHONE, c.owner, c.dncRegistry)
  }

  function Begun(c: Contact, k: nat): InFlight {
    InFlight({CODE}, map[CODE := k], [RowNow(c)], Ready, None)
  }

  function HitsOf(l: List): set<string> {
    if l.holdsLead then {NUMBER} else {}
  }

  function Writing(c: Contact, k: nat, l: List): InFlight {
    Begun(c, k).(current := Some(CodeRun(k, HitsOf(l), [RowNow(c)], None)))
  }

  function Written(c: Contact, k: nat, l: List): InFlight {
    Begun(c, k).(current := Some(CodeRun(k, HitsOf(l), [], if !l.holdsLead && c.dncRegistry then Some(RowNow(c)) else None)))
  }

  lemma {:induction false} OneAscending(x: Id)
    ensures Ascending({x}) == [x] && Ascending({}) == []
  {
    var r := Ascending({x});
    assert |r| == 1 && r[0] in r;
  }

  lemma {:induction false} LeadIsDue(db: Db, now: Time, c: Contact)
    requires db.contacts == map[LEAD := c] && db.subscriptions == {CODE}
    requires c.phone == Some(PHONE) && !c.isSeed && c.owner == HOUSE
    requires c.dncCheckedAt.Some? ==> c.dncCheckedAt.value < now - DNC_RECHECK_DAYS * DAY
    ensures DueAll(db, now, None) == [RowNow(c)]
  {
    PhoneParts();
    OneAscending(LEAD);
    assert IsDue(db, now, LEAD);
    assert (set id | id in db.contacts && IsDue(db, now, id) && db.contacts[id].owner != HOUSE) == {};
    assert (set id | id in db.contacts && IsDue(db, now, id) && db.contacts[id].owner == HOUSE) == {LEAD};
    assert DueIds(db, now, None) == [LEAD];
    assert DueRows(db, [LEAD]) == [RowNow(c)] by {
      assert [LEAD][1..] == [];
    }
  }

  /** What every state of the lead in these runs has. */
  predicate IsLead(c: Contact) {
    c.phone == Some(PHONE) && !c.isSeed && c.stage == Prospect && !c.doNotCall
  }

  lemma {:induction false} Begins(w: World, c: Contact, lists: seq<List>, scrubs: map<Id, InFlight>, pending: map<Id, Pending>, now: Time, run: Id)
    requires Scene(w, c, lists, now, scrubs, pending) && lists != [] && run !in scrubs
    requires IsLead(c) && c.owner == HOUSE
    requires c.dncCheckedAt.Some? ==> c.dncCheckedAt.value < now - DNC_RECHECK_DAYS * DAY
    ensures Scene(AfterReads(w, run), c, lists, now, scrubs[run := Begun(c, |lists| - 1)], pending)
  {
    NewestIsLast(lists);
    BeginsAs(w, c, run, |lists| - 1);
    ScrubsMove(w, c, lists, scrubs, pending, now, scrubs[run := Begun(c, |lists| - 1)]);
  }

  lemma {:induction false} BeginsAs(w: World, c: Contact, run: Id, k: nat)
    requires w.db.contacts == map[LEAD := c] && w.db.subscriptions == {CODE} && IsLead(c) && c.owner == HOUSE
    requires c.dncCheckedAt.Some? ==> c.dncCheckedAt.value < w.now - DNC_RECHECK_DAYS * DAY
    requires run !in w.scrubs && Newest(w.db.snapshots, CODE) == Some(k)
    ensures AfterReads(w, run) == w.(scrubs := w.scrubs[run := Begun(c, k)])
  {
    assert w.db.(subscriptions := w.db.subscriptions) == w.db;
    LeadIsDue(w.db, w.now, c);
    CodeIsCovered(w.db, k);
    OpensInThree(w, run, None);
  }

  /** The three reads of a scrub, one right after the other. */
  ghost function AfterReads(w: World, run: Id): World {
    Next(Next(Next(w, ScrubBegin(run)), ScrubCover(run)), ScrubDue(run, None))
  }

  lemma {:induction false} ScrubsMove(w: World, c: Contact, lists: seq<List>, scrubs: map<Id, InFlight>, pending: map<Id, Pending>, now: Time,
                                      scrubs': map<Id, InFlight>)
    requires Scene(w, c, lists, now, scrubs, pending)
    ensures Scene(w.(scrubs := scrubs'), c, lists, now, scrubs', pending)
  {
  }

  lemma {:induction false} CodeIsCovered(db: Db, k: nat)
    requires db.subscriptions == {CODE} && Newest(db.snapshots, CODE) == Some(k)
    ensures Coverage(db.snapshots, db.subscriptions) == map[CODE := k]
  {
  }

  lemma {:induction false} OneRow(c: Contact)
    ensures RowsIn([RowNow(c)], CODE) == [RowNow(c)] && Nationals([RowNow(c)]) == {NUMBER}
  {
    PhoneParts();
    assert [RowNow(c)][..0] == [];
    assert [RowNow(c)][0].phone == PHONE;
  }

  /** One file's answer for the lead's number. */
  lemma {:induction false} FileAnswers(l: List)
    ensures Listing(map[NameOf(l) := BodyOf(l)], CODE, {NUMBER}) == Ok(HitsOf(l))
  {
    BodyReads(l);
    var zips := map[NameOf(l) := BodyOf(l)];
    ListingMeetsValidation(zips, NameOf(l), CODE, {NUMBER});
    var name := ListingReads(zips, CODE, {NUMBER});
    assert name == NameOf(l);
    assert {NUMBER} * Numbers(CODE, BodyOf(l)) == HitsOf(l);
  }

  lemma {:induction false} Starts(w: World, f: InFlight, c: Contact, l: List, k: nat)
    requires f == Begun(c, k) && k < |w.db.snapshots|
    requires DirectoryOf(w.disk, w.db.snapshots[k], CODE) == map[NameOf(l) := BodyOf(l)]
    ensures StartCode(w, f, CODE) == Some(Writing(c, k, l))
  {
    OneRow(c);
    FileAnswers(l);
  }

  lemma {:induction false} Codes(w: World, c: Contact, was: Contact, lists: seq<List>, scrubs: map<Id, InFlight>, pending: map<Id, Pending>,
                                 now: Time, run: Id, k: nat)
    requires Scene(w, c, lists, now, scrubs, pending) && k < |lists| && run in scrubs && scrubs[run] == Begun(was, k)
    ensures Scene(Next(w, ScrubCode(run, CODE)), c, lists, now, scrubs[run := Writing(was, k, lists[k])], pending)
  {
    OneFileADay(lists, k);
    assert w.db.snapshots[k] == RowFor(lists[k]);
    Starts(w, scrubs[run], was, lists[k], k);
    CodesAs(w, was, lists[k], run, k);
    ScrubsMove(w, c, lists, scrubs, pending, now, scrubs[run := Writing(was, k, lists[k])]);
  }

  lemma {:induction false} CodesAs(w: World, was: Contact, l: List, run: Id, k: nat)
    requires run in w.scrubs && StartCode(w, w.scrubs[run], CODE) == Some(Writing(was, k, l))
    ensures Next(w, ScrubCode(run, CODE)) == w.(scrubs := w.scrubs[run := Writing(was, k, l)])
  {
  }

  /** What a row write makes of the lead, when it remembers the house as the owner. */
  function Checked(c: Contact, now: Time, k: nat, l: List): Contact {
    c.(dncCheckedAt := Some(now), dncRegistry := l.holdsLead, dncSnapshot := Some(k))
  }

  lemma {:induction false} Writes(w: World, c: Contact, was: Contact, lists: seq<List>, scrubs: map<Id, InFlight>, pending: map<Id, Pending>,
                                  now: Time, run: Id, k: nat)
    requires Scene(w, c, lists, now, scrubs, pending) && k < |lists| && was.owner == HOUSE
    requires run in scrubs && scrubs[run] == Writing(was, k, lists[k])
    ensures Scene(Next(w, ScrubOne(run)), Checked(c, now, k, lists[k]), lists, now, scrubs[run := Written(was, k, lists[k])], pending)
  {
    WritesAs(w, c, was, lists[k], run, k);
  }

  lemma {:induction false} WritesAs(w: World, c: Contact, was: Contact, l: List, run: Id, k: nat)
    requires w.db.contacts == map[LEAD := c] && was.owner == HOUSE && run in w.scrubs && w.scrubs[run] == Writing(was, k, l)
    ensures var after := Next(w, ScrubOne(run));
            && after == w.(db := w.db.(contacts := map[LEAD := Checked(c, w.now, k, l)], events := after.db.events),
                           scrubs := w.scrubs[run := Written(was, k, l)])
  {
    PhoneParts();
    assert RowReady(w, run) && NextRow(w, run) == RowNow(was) && (IsHit(w, run) <==> l.holdsLead);
    assert [RowNow(was)][1..] == [];
    assert w.db.contacts[LEAD := Checked(c, w.now, k, l)] == map[LEAD := Checked(c, w.now, k, l)];
  }

  lemma {:induction false} Stops(w: World, c: Contact, lists: seq<List>, scrubs: map<Id, InFlight>, pending: map<Id, Pending>, now: Time, run: Id)
    requires Scene(w, c, lists, now, scrubs, pending)
    ensures Scene(Next(w, ScrubStop(run)), c, lists, now, scrubs - {run}, pending)
  {
  }

  // The first check of the lead, by a scrub that nothing interrupts.

  /** An uploaded list, and its scrub. */
  function FirstCheck(l: List): seq<Step> {
    [Upload([], l), ScrubBegin(0), ScrubCover(0), ScrubDue(0, None), ScrubCode(0, CODE), ScrubOne(0), ScrubStop(0)]
  }

  lemma {:induction false} Checks(w: World, l: List)
    requires Scene(w, Lead(), [], l.date * DAY, map[], map[])
    ensures Scene(Run(w, FirstCheck(l)), Checked(Lead(), l.date * DAY, 0, l), [l], l.date * DAY, map[], map[])
  {
    Trace7(w, FirstCheck(l));
    assert [] + [l] == [l];
    Uploads(w, Lead(), [], map[], map[], l, l.date * DAY);
    ScrubsAlone(Next(w, Upload([], l)), l, l.date * DAY);
  }

  lemma {:induction false} ScrubsAlone(w: World, l: List, now: Time)
    requires Scene(w, Lead(), [l], now, map[], map[])
    ensures Scene(Next(Next(Next(AfterReads(w, 0), ScrubCode(0, CODE)), ScrubOne(0)), ScrubStop(0)),
                  Checked(Lead(), now, 0, l), [l], now, map[], map[])
  {
    var c := Lead();
    var begun := AfterReads(w, 0);
    Begins(w, c, [l], map[], map[], now, 0);
    WritesAlone(begun, l, now);
  }

  lemma {:induction false} WritesAlone(w: World, l: List, now: Time)
    requires Scene(w, Lead(), [l], now, map[0 := Begun(Lead(), 0)], map[])
    ensures Scene(Next(Next(Next(w, ScrubCode(0, CODE)), ScrubOne(0)), ScrubStop(0)),
                  Checked(Lead(), now, 0, l), [l], now, map[], map[])
  {
    var c := Lead();
    var coded := Next(w, ScrubCode(0, CODE));
    Codes(w, c, c, [l], map[0 := Begun(c, 0)], map[], now, 0, 0);
    var written := Next(coded, ScrubOne(0));
    Writes(coded, c, c, [l], map[0 := Writing(c, 0, l)], map[], now, 0, 0);
    Stops(written, Checked(c, now, 0, l), [l], map[0 := Written(c, 0, l)], map[], now, 0);
  }

  lemma {:induction false} Trace7(w: World, steps: seq<Step>)
    requires |steps| == 7
    ensures Run(w, steps)
            == Next(Next(Next(Next(Next(Next(Next(w, steps[0]), steps[1]), steps[2]), steps[3]), steps[4]), steps[5]), steps[6])
  {
    FirstFour(w, steps);
    LastThree(w, steps, Next(Next(Next(Next(w, steps[0]), steps[1]), steps[2]), steps[3]));
  }

  lemma {:induction false} LastThree(w: World, steps: seq<Step>, four: World)
    requires |steps| == 7 && Run(w, steps[..4]) == four
    ensures Run(w, steps) == Next(Next(Next(four, steps[4]), steps[5]), steps[6])
  {
    Trace3(w, steps, 4);
    assert steps[..7] == steps;
  }

  lemma {:induction false} FirstFour(w: World, steps: seq<Step>)
    requires |steps| >= 4
    ensures Run(w, steps[..4]) == Next(Next(Next(Next(w, steps[0]), steps[1]), steps[2]), steps[3])
  {
    Trace(w, steps, 0);
    Trace(w, steps, 1);
    Trace3(w, steps, 1);
  }

  lemma {:induction false} Trace3(w: World, steps: seq<Step>, k: nat)
    requires k + 3 <= |steps|
    ensures Run(w, steps[..k + 3]) == Next(Next(Next(Run(w, steps[..k]), steps[k]), steps[k + 1]), steps[k + 2])
  {
    Trace(w, steps, k + 1);
    Trace(w, steps, k + 2);
    Trace(w, steps, k + 3);
  }

  lemma {:induction false} Trace(w: World, steps: seq<Step>, k: nat)
    requires k <= |steps|
    ensures k > 0 ==> Run(w, steps[..k]) == Next(Run(w, steps[..k - 1]), steps[k - 1])
    ensures k == 0 ==> Run(w, steps[..k]) == w
  {
    if k > 0 {
      assert steps[..k][..k - 1] == steps[..k - 1];
    }
  }

  lemma {:induction false} Trace2(w: World, steps: seq<Step>)
    requires |steps| == 2
    ensures Run(w, steps) == Next(Next(w, steps[0]), steps[1])
  {
    Trace(w, steps, 0);
    Trace(w, steps, 1);
    Trace(w, steps, 2);
    assert steps[..2] == steps;
  }

  /** The world after the first check. */
  lemma {:induction false} OpensAndChecks(l: List)
    requires l.date == 0
    ensures Scene(Run(Genesis(0), Opening() + FirstCheck(l)), Checked(Lead(), 0, 0, l), [l], 0, map[], map[])
  {
    Opens();
    Checks(Run(Genesis(0), Opening()), l);
    RunConcat(Genesis(0), Opening(), FirstCheck(l));
  }

  // The sale of the lead.

  const ORDER := AssignCall(BUYER, "", None, None, Some([LEAD]))

  const SALE := AssignStep(ORDER, {}, BATCH)

  function Sold(c: Contact): Contact {
    c.(owner := BUYER, batch := Some(BATCH))
  }

  predicate IsForSale(c: Contact, lists: seq<List>, now: Time) {
    && IsLead(c) && c.owner == HOUSE && c.batch.None? && !c.dncRegistry
    && c.dncCheckedAt.Some? && c.dncCheckedAt.value >= now - DNC_FRESHNESS_DAYS * DAY
    && c.dncSnapshot.Some? && c.dncSnapshot.value < |lists|
    && lists[c.dncSnapshot.value].date >= DateOf(now) - DNC_FRESHNESS_DAYS
  }

  lemma {:induction false} LeadPasses(db: Db, now: Time, c: Contact, lists: seq<List>)
    requires db.contacts == map[LEAD := c] && db.subscriptions == {CODE} && db.tombstones == []
    requires db.snapshots == Ledger(lists) && IsForSale(c, lists, now)
    ensures Custody.Passes(db, now, LEAD)
  {
    PhoneParts();
    assert db.snapshots[c.dncSnapshot.value] == RowFor(lists[c.dncSnapshot.value]);
  }

  lemma {:induction false} LeadIsCandidate(db: Db)
    requires LEAD in db.contacts
    ensures Candidates(db, ORDER, {}) == [LEAD]
  {
    OneAscending(LEAD);
    assert (set id | id in [LEAD] && id in db.contacts) == {LEAD};
  }

  lemma {:induction false} LeadIsChosen(db: Db, now: Time)
    requires db.partners == BUYERS && db.batches == map[] && Custody.Passes(db, now, LEAD)
    ensures IsNewBatch(db, ORDER) && Chosen(db, now, ORDER, {}) == [LEAD]
  {
    LeadIsCandidate(db);
    assert KeyHolders(db, "") == {};
    assert [LEAD][..0] == [];
    assert Passing(db, now, [LEAD]) == [LEAD];
  }

  /** The assignment takes the lead, and touches nothing else that matters here. */
  lemma {:induction false} Sells(w: World, c: Contact, lists: seq<List>, scrubs: map<Id, InFlight>, pending: map<Id, Pending>, now: Time)
    requires Scene(w, c, lists, now, scrubs, pending) && IsForSale(c, lists, now)
    ensures var after := Next(w, SALE);
            && after.db.contacts == map[LEAD := Sold(c)] && BATCH in after.db.batches
            && after.db.snapshots == w.db.snapshots
            && after.scrubs == scrubs && after.pending == pending && after.now == now
  {
    LeadPasses(w.db, now, c, lists);
    LeadIsChosen(w.db, now);
    LeadIsSold(w.db, now, c);
    SaleAssigns(w);
  }

  lemma {:induction false} SaleAssigns(w: World)
    requires w.db.batches == map[]
    ensures Next(w, SALE) == w.(db := Assign(w.db, w.now, ORDER, {}, BATCH))
  {
  }

  lemma {:induction false} LeadIsSold(db: Db, now: Time, c: Contact)
    requires db.contacts == map[LEAD := c] && db.partners == BUYERS && db.batches == map[]
    requires IsNewBatch(db, ORDER) && Chosen(db, now, ORDER, {}) == [LEAD]
    ensures var after := Assign(db, now, ORDER, {}, BATCH);
            && after.contacts == map[LEAD := Sold(c)] && BATCH in after.batches && after.snapshots == db.snapshots
  {
    MovesLead(WithBatch(db, now, ORDER, {}, BATCH), now, c);
  }

  lemma {:induction false} MovesLead(ready: Db, now: Time, c: Contact)
    requires ready.contacts == map[LEAD := c]
    ensures var after := SetOwners(ready, [LEAD], BUYER, ContactAssigned, "assigned", Some(BATCH), now);
            && after.contacts == map[LEAD := Sold(c)] && after == ready.(contacts := after.contacts, events := after.events)
  {
    SetOwnersMoves(ready, [LEAD], BUYER, ContactAssigned, "assigned", Some(BATCH), now);
    SetOwnersLogs(ready, [LEAD], BUYER, ContactAssigned, "assigned", Some(BATCH), now);
  }

  // First run: a delisting that comes too late.

  const DAY_ONE := List(0, true)
  const DAY_TWO := List(25, false)
  const DAY_THREE := List(26, true)

  /** The second list lacks the number: run 1 begins on it. */
  function SecondScrub(): seq<Step> {
    [Tick(25 * DAY), Upload([DAY_ONE], DAY_TWO), ScrubBegin(1), ScrubCover(1), ScrubDue(1, None), ScrubCode(1, CODE), Tick(DAY)]
  }

  /** The third list has it again: run 2 begins on that, and both write their rows. */
  function ThirdScrub(): seq<Step> {
    [Upload([DAY_ONE, DAY_TWO], DAY_THREE), ScrubBegin(2), ScrubCover(2), ScrubDue(2, None), ScrubCode(2, CODE), ScrubOne(1), ScrubOne(2)]
  }

  function LateDelisting(): seq<Step> {
    Opening() + FirstCheck(DAY_ONE) + SecondScrub() + ThirdScrub() + [ScrubDelist(1), SALE]
  }

  function Seen(n: nat): Contact {
    var first := Checked(Lead(), 0, 0, DAY_ONE);
    if n == 1 then first
    else if n == 2 then Checked(first, 26 * DAY, 1, DAY_TWO)
    else Checked(Checked(first, 26 * DAY, 1, DAY_TWO), 26 * DAY, 2, DAY_THREE)
  }

  lemma {:induction false} UploadsLater(w: World, c: Contact, lists: seq<List>, l: List, now: Time, seconds: nat)
    requires Scene(w, c, lists, now, map[], map[]) && Daily(lists + [l])
    ensures Scene(Next(Next(w, Tick(seconds)), Upload(lists, l)), c, lists + [l], now + seconds, map[], map[])
  {
    Ticks(w, c, lists, map[], map[], now, seconds);
    Uploads(Next(w, Tick(seconds)), c, lists, map[], map[], l, now + seconds);
  }

  /** A scrub does its reads and takes up its code. */
  lemma {:induction false} ReadsAndStarts(w: World, c: Contact, lists: seq<List>, scrubs: map<Id, InFlight>, now: Time, run: Id, k: nat)
    requires Scene(w, c, lists, now, scrubs, map[]) && |lists| == k + 1 && run !in scrubs
    requires IsLead(c) && c.owner == HOUSE
    requires c.dncCheckedAt.Some? ==> c.dncCheckedAt.value < now - DNC_RECHECK_DAYS * DAY
    ensures Scene(Next(AfterReads(w, run), ScrubCode(run, CODE)), c, lists, now, scrubs[run := Writing(c, k, lists[k])], map[])
  {
    Begins(w, c, lists, scrubs, map[], now, run);
    StartsAfterReads(AfterReads(w, run), c, lists, scrubs, now, run, k);
  }

  lemma {:induction false} StartsAfterReads(w: World, c: Contact, lists: seq<List>, scrubs: map<Id, InFlight>, now: Time, run: Id, k: nat)
    requires Scene(w, c, lists, now, scrubs[run := Begun(c, k)], map[]) && k < |lists|
    ensures Scene(Next(w, ScrubCode(run, CODE)), c, lists, now, scrubs[run := Writing(c, k, lists[k])], map[])
  {
    var begun := scrubs[run := Begun(c, k)];
    assert begun[run := Writing(c, k, lists[k])] == scrubs[run := Writing(c, k, lists[k])];
    Codes(w, c, c, lists, begun, map[], now, run, k);
  }

  lemma {:induction false} SecondScrubTrace(w: World)
    ensures Run(w, SecondScrub())
            == Next(Next(AfterReads(Next(Next(w, Tick(25 * DAY)), Upload([DAY_ONE], DAY_TWO)), 1), ScrubCode(1, CODE)), Tick(DAY))
  {
    Trace7(w, SecondScrub());
  }

  lemma {:induction false} SecondScrubRuns(w: World)
    requires Scene(w, Seen(1), [DAY_ONE], 0, map[], map[])
    ensures Scene(Run(w, SecondScrub()), Seen(1), [DAY_ONE, DAY_TWO], 26 * DAY, map[1 := Writing(Seen(1), 1, DAY_TWO)], map[])
  {
    SecondScrubTrace(w);
    assert [DAY_ONE] + [DAY_TWO] == [DAY_ONE, DAY_TWO];
    UploadsLater(w, Seen(1), [DAY_ONE], DAY_TWO, 0, 25 * DAY);
    SecondScrubGoesOn(Next(Next(w, Tick(25 * DAY)), Upload([DAY_ONE], DAY_TWO)));
  }

  lemma {:induction false} SecondScrubGoesOn(w: World)
    requires Scene(w, Seen(1), [DAY_ONE, DAY_TWO], 25 * DAY, map[], map[])
    ensures Scene(Next(Next(AfterReads(w, 1), ScrubCode(1, CODE)), Tick(DAY)), Seen(1), [DAY_ONE, DAY_TWO], 26 * DAY,
                  map[1 := Writing(Seen(1), 1, DAY_TWO)], map[])
  {
    var writing := map[1 := Writing(Seen(1), 1, DAY_TWO)];
    ReadsAndStarts(w, Seen(1), [DAY_ONE, DAY_TWO], map[], 25 * DAY, 1, 1);
    assert map[][1 := Writing(Seen(1), 1, DAY_TWO)] == writing;
    Ticks(Next(AfterReads(w, 1), ScrubCode(1, CODE)), Seen(1), [DAY_ONE, DAY_TWO], writing, map[], 25 * DAY, DAY);
  }

  lemma {:induction false} ThirdScrubTrace(w: World)
    ensures Run(w, ThirdScrub())
            == Next(Next(Next(AfterReads(Next(w, Upload([DAY_ONE, DAY_TWO], DAY_THREE)), 2), ScrubCode(2, CODE)), ScrubOne(1)), ScrubOne(2))
  {
    Trace7(w, ThirdScrub());
  }

  /** The lists of the first run, and what its two scrubs have in flight. */
  const THREE := [DAY_ONE, DAY_TWO, DAY_THREE]

  function Both(first: InFlight, second: InFlight): map<Id, InFlight> {
    map[1 := first, 2 := second]
  }

  lemma {:induction false} ThirdScrubRuns(w: World)
    requires Scene(w, Seen(1), [DAY_ONE, DAY_TWO], 26 * DAY, map[1 := Writing(Seen(1), 1, DAY_TWO)], map[])
    ensures Scene(Run(w, ThirdScrub()), Seen(3), THREE, 26 * DAY,
                  Both(Written(Seen(1), 1, DAY_TWO), Written(Seen(1), 2, DAY_THREE)), map[])
  {
    ThirdScrubTrace(w);
    assert [DAY_ONE, DAY_TWO] + [DAY_THREE] == THREE;
    var first := map[1 := Writing(Seen(1), 1, DAY_TWO)];
    Uploads(w, Seen(1), [DAY_ONE, DAY_TWO], first, map[], DAY_THREE, 26 * DAY);
    var uploaded := Next(w, Upload([DAY_ONE, DAY_TWO], DAY_THREE));
    ReadsAndStarts(uploaded, Seen(1), THREE, first, 26 * DAY, 2, 2);
    assert first[2 := Writing(Seen(1), 2, DAY_THREE)] == Both(Writing(Seen(1), 1, DAY_TWO), Writing(Seen(1), 2, DAY_THREE));
    BothWrite(Next(AfterReads(uploaded, 2), ScrubCode(2, CODE)));
  }

  /** The older scrub writes that the lead is not listed, then the newer one that it is. */
  lemma {:induction false} BothWrite(w: World)
    requires Scene(w, Seen(1), THREE, 26 * DAY, Both(Writing(Seen(1), 1, DAY_TWO), Writing(Seen(1), 2, DAY_THREE)), map[])
    ensures Scene(Next(Next(w, ScrubOne(1)), ScrubOne(2)), Seen(3), THREE, 26 * DAY,
                  Both(Written(Seen(1), 1, DAY_TWO), Written(Seen(1), 2, DAY_THREE)), map[])
  {
    var before := Both(Writing(Seen(1), 1, DAY_TWO), Writing(Seen(1), 2, DAY_THREE));
    var between := Both(Written(Seen(1), 1, DAY_TWO), Writing(Seen(1), 2, DAY_THREE));
    assert before[1 := Written(Seen(1), 1, DAY_TWO)] == between;
    assert between[2 := Written(Seen(1), 2, DAY_THREE)] == Both(Written(Seen(1), 1, DAY_TWO), Written(Seen(1), 2, DAY_THREE));
    Writes(w, Seen(1), Seen(1), THREE, before, map[], 26 * DAY, 1, 1);
    Writes(Next(w, ScrubOne(1)), Seen(2), Seen(1), THREE, between, map[], 26 * DAY, 2, 2);
  }

  lemma {:induction false} Delists(w: World, c: Contact, was: Contact, lists: seq<List>, scrubs: map<Id, InFlight>, pending: map<Id, Pending>,
                                   now: Time, run: Id, k: nat, l: List)
    requires Scene(w, c, lists, now, scrubs, pending) && run in scrubs && scrubs[run] == Written(was, k, l)
    requires !l.holdsLead && was.dncRegistry
    ensures MeetsFlag(w, ScrubDelist(run)) <==> c.dncRegistry
    ensures Scene(Next(w, ScrubDelist(run)), c.(dncRegistry := false), lists, now, Next(w, ScrubDelist(run)).scrubs, pending)
  {
    DelistingMeets(w, c, was, run, k, l);
    DelistsAs(w, c, was, run, k, l);
  }

  lemma {:induction false} DelistingMeets(w: World, c: Contact, was: Contact, run: Id, k: nat, l: List)
    requires w.db.contacts == map[LEAD := c] && run in w.scrubs && w.scrubs[run] == Written(was, k, l)
    requires !l.holdsLead && was.dncRegistry
    ensures MeetsFlag(w, ScrubDelist(run)) <==> c.dncRegistry
  {
  }

  lemma {:induction false} DelistsAs(w: World, c: Contact, was: Contact, run: Id, k: nat, l: List)
    requires w.db.contacts == map[LEAD := c] && run in w.scrubs && w.scrubs[run] == Written(was, k, l)
    requires !l.holdsLead && was.dncRegistry
    ensures var after := Next(w, ScrubDelist(run));
            after == w.(db := w.db.(contacts := map[LEAD := c.(dncRegistry := false)], events := after.db.events),
                        scrubs := after.scrubs)
  {
    var later := c.(dncRegistry := false);
    assert w.db.contacts[LEAD := later] == map[LEAD := later];
    assert DelistReady(w, run) && CodeOf(w, run).delisting == Some(RowNow(was));
  }

  /** The whole run leaves the lead on the buyer's sheet, in date, although the list that its stamp names
      holds its number: the run's last delisting met the flag that the newer list had raised. */
  lemma {:induction false} LateDelistingHappens() returns (row: SheetRow)
    ensures var w := Run(Genesis(0), LateDelisting());
            && row in Sheet(w.db, w.now, BUYER) && row.contact == LEAD && LEAD in w.db.contacts
            && w.db.contacts[LEAD].phone == Some(PHONE) && w.db.contacts[LEAD].dncSnapshot == Some(2)
            && Lists(w.db.snapshots, 2, National(PHONE))
    ensures var before := Opening() + FirstCheck(DAY_ONE) + SecondScrub() + ThirdScrub();
            MeetsFlag(Run(Genesis(0), before), ScrubDelist(1))
  {
    var start := Opening() + FirstCheck(DAY_ONE);
    var w0, w1 := Run(Genesis(0), start), Run(Genesis(0), start + SecondScrub());
    var w2 := Run(Genesis(0), start + SecondScrub() + ThirdScrub());
    OpensAndChecks(DAY_ONE);
    RunConcat(Genesis(0), start, SecondScrub());
    SecondScrubRuns(w0);
    RunConcat(Genesis(0), start + SecondScrub(), ThirdScrub());
    ThirdScrubRuns(w1);
    RunConcat(Genesis(0), start + SecondScrub() + ThirdScrub(), [ScrubDelist(1), SALE]);
    Trace2(w2, [ScrubDelist(1), SALE]);
    row := SaleAfterDelisting(w2);
  }

  lemma {:induction false} SaleAfterDelisting(w: World) returns (row: SheetRow)
    requires Scene(w, Seen(3), [DAY_ONE, DAY_TWO, DAY_THREE], 26 * DAY,
                   Both(Written(Seen(1), 1, DAY_TWO), Written(Seen(1), 2, DAY_THREE)), map[])
    ensures MeetsFlag(w, ScrubDelist(1))
    ensures var after := Next(Next(w, ScrubDelist(1)), SALE);
            && row in Sheet(after.db, after.now, BUYER) && row.contact == LEAD && LEAD in after.db.contacts
            && after.db.contacts[LEAD].phone == Some(PHONE) && after.db.contacts[LEAD].dncSnapshot == Some(2)
            && Lists(after.db.snapshots, 2, National(PHONE))
  {
    var lists := [DAY_ONE, DAY_TWO, DAY_THREE];
    var c := Seen(3).(dncRegistry := false);
    Delists(w, Seen(3), Seen(1), lists, w.scrubs, map[], 26 * DAY, 1, 1, DAY_TWO);
    var delisted := Next(w, ScrubDelist(1));
    Sells(delisted, c, lists, delisted.scrubs, map[], 26 * DAY);
    var after := Next(delisted, SALE);
    row := OnTheSheet(after.db, 26 * DAY, Sold(c), lists);
    PhoneParts();
    BodyReads(DAY_THREE);
    assert after.db.snapshots[2] == RowFor(DAY_THREE);
  }

  lemma {:induction false} FreshRow(db: Db, now: Time, ids: seq<Id>, id: Id) returns (row: SheetRow)
    requires forall i :: i in ids ==> i in db.contacts && db.contacts[i].batch.Some? && db.contacts[i].batch.value in db.batches
    requires id in ids && DncFresh(db.snapshots, db.contacts[id], now)
    ensures row in SheetRows(db, now, ids) && row.contact == id
  {
    var front, last := ids[..|ids| - 1], ids[|ids| - 1];
    assert ids == front + [last];
    if id == last {
      row := SheetRow(id, db.contacts[id].phone, db.batches[db.contacts[id].batch.value].expiresAt, now);
      assert SheetRows(db, now, ids) == SheetRows(db, now, front) + [row];
    } else {
      row := FreshRow(db, now, front, id);
    }
  }

  lemma {:induction false} OnTheSheet(db: Db, now: Time, c: Contact, lists: seq<List>) returns (row: SheetRow)
    requires db.contacts == map[LEAD := c] && BATCH in db.batches && db.snapshots == Ledger(lists)
    requires c.owner == BUYER && c.batch == Some(BATCH) && IsForSale(c.(owner := HOUSE, batch := None), lists, now)
    ensures row in Sheet(db, now, BUYER) && row.contact == LEAD
  {
    assert OnSheet(db, BUYER, LEAD);
    assert LEAD in SheetIds(db, BUYER);
    assert db.snapshots[c.dncSnapshot.value] == RowFor(lists[c.dncSnapshot.value]);
    var ids := SheetIds(db, BUYER);
    assert LEAD in ids && DncFresh(db.snapshots, db.contacts[LEAD], now);
    row := FreshRow(db, now, ids, LEAD);
  }

  // Second and third run: owners of the past.

  const CLEAN := List(0, false)
  const DIRTY := List(25, true)

  /** A list with the number arrives; its scrub reads the lead as the house's; the lead is sold. */
  function HitToCome(): seq<Step> {
    [Tick(25 * DAY), Upload([CLEAN], DIRTY), ScrubBegin(1), ScrubCover(1), ScrubDue(1, None), ScrubCode(1, CODE), SALE]
  }

  function StaleHit(): seq<Step> {
    Opening() + FirstCheck(CLEAN) + HitToCome() + [ScrubOne(1)]
  }

  /** The last row write leaves a listed number with the buyer. */
  lemma {:induction false} StaleHitHappens()
    ensures HitSlips(Run(Genesis(0), Opening() + FirstCheck(CLEAN) + HitToCome()), ScrubOne(1))
    ensures var w := Run(Genesis(0), StaleHit());
            LEAD in w.db.contacts && w.db.contacts[LEAD].owner == BUYER && w.db.contacts[LEAD].dncRegistry
  {
    var start := Opening() + FirstCheck(CLEAN);
    OpensAndChecks(CLEAN);
    RunConcat(Genesis(0), start, HitToCome());
    RunSnoc(Genesis(0), start + HitToCome(), ScrubOne(1));
    HitComes(Run(Genesis(0), start));
    var w := Run(Genesis(0), start + HitToCome());
    var c := Checked(Lead(), 0, 0, CLEAN);
    PhoneParts();
    assert NextRow(w, 1) == RowNow(c) && IsHit(w, 1);
    WritesAs(w, Sold(c), c, DIRTY, 1, 1);
  }

  /** The scrub reads the lead and takes up its code; then the lead is sold. */
  ghost function ReadAndSold(w: World): World {
    Next(Next(AfterReads(w, 1), ScrubCode(1, CODE)), SALE)
  }

  lemma {:induction false} HitTrace(w: World, uploaded: World)
    requires uploaded == Next(Next(w, Tick(25 * DAY)), Upload([CLEAN], DIRTY))
    ensures Run(w, HitToCome()) == ReadAndSold(uploaded)
  {
    Trace7(w, HitToCome());
  }

  lemma {:induction false} HitUploads(w: World, uploaded: World)
    requires Scene(w, Checked(Lead(), 0, 0, CLEAN), [CLEAN], 0, map[], map[])
    requires uploaded == Next(Next(w, Tick(25 * DAY)), Upload([CLEAN], DIRTY))
    ensures Scene(uploaded, Checked(Lead(), 0, 0, CLEAN), [CLEAN, DIRTY], 25 * DAY, map[], map[])
  {
    assert [CLEAN] + [DIRTY] == [CLEAN, DIRTY];
    UploadsLater(w, Checked(Lead(), 0, 0, CLEAN), [CLEAN], DIRTY, 0, 25 * DAY);
  }

  lemma {:induction false} HitComes(w: World)
    requires Scene(w, Checked(Lead(), 0, 0, CLEAN), [CLEAN], 0, map[], map[])
    ensures var c := Checked(Lead(), 0, 0, CLEAN);
            var after := Run(w, HitToCome());
            after.db.contacts == map[LEAD := Sold(c)] && after.scrubs == map[1 := Writing(c, 1, DIRTY)]
  {
    var uploaded := Next(Next(w, Tick(25 * DAY)), Upload([CLEAN], DIRTY));
    HitUploads(w, uploaded);
    HitTrace(w, uploaded);
    HitIsReadAndSold(uploaded);
  }

  lemma {:induction false} HitIsReadAndSold(w: World)
    requires Scene(w, Checked(Lead(), 0, 0, CLEAN), [CLEAN, DIRTY], 25 * DAY, map[], map[])
    ensures var c := Checked(Lead(), 0, 0, CLEAN);
            var after := ReadAndSold(w);
            after.db.contacts == map[LEAD := Sold(c)] && after.scrubs == map[1 := Writing(c, 1, DIRTY)]
  {
    var c := Checked(Lead(), 0, 0, CLEAN);
    ReadsAndStarts(w, c, [CLEAN, DIRTY], map[], 25 * DAY, 1, 1);
    assert map[][1 := Writing(c, 1, DIRTY)] == map[1 := Writing(c, 1, DIRTY)];
    Sells(Next(AfterReads(w, 1), ScrubCode(1, CODE)), c, [CLEAN, DIRTY], map[1 := Writing(c, 1, DIRTY)], map[], 25 * DAY);
  }

  const ASKED := Suppression(LEAD, Only(Voice), "asked", None)

  function StaleSuppression(): seq<Step> {
    Opening() + FirstCheck(CLEAN) + [SuppressRead(0, ASKED), SALE] + [SuppressWrite(0)]
  }

  /** The suppression's write leaves a do-not-call number with the buyer. */
  lemma {:induction false} StaleSuppressionHappens()
    ensures SuppressionSlips(Run(Genesis(0), Opening() + FirstCheck(CLEAN) + [SuppressRead(0, ASKED), SALE]), SuppressWrite(0))
    ensures var w := Run(Genesis(0), StaleSuppression());
            LEAD in w.db.contacts && w.db.contacts[LEAD].owner == BUYER && w.db.contacts[LEAD].doNotCall
  {
    var start, middle := Opening() + FirstCheck(CLEAN), [SuppressRead(0, ASKED), SALE];
    var c := Checked(Lead(), 0, 0, CLEAN);
    var w := Run(Genesis(0), start);
    OpensAndChecks(CLEAN);
    RunConcat(Genesis(0), start, middle);
    RunSnoc(Genesis(0), start + middle, SuppressWrite(0));
    Trace2(w, middle);
    SuppressionReads(w, c);
    SuppressionSold(Next(w, SuppressRead(0, ASKED)), c);
  }

  lemma {:induction false} SuppressionSold(w: World, c: Contact)
    requires Scene(w, c, [CLEAN], 0, map[], map[0 := Pending(ASKED, HOUSE)]) && c == Checked(Lead(), 0, 0, CLEAN)
    ensures SuppressionSlips(Next(w, SALE), SuppressWrite(0))
    ensures var after := Next(Next(w, SALE), SuppressWrite(0));
            LEAD in after.db.contacts && after.db.contacts[LEAD].owner == BUYER && after.db.contacts[LEAD].doNotCall
  {
    Sells(w, c, [CLEAN], map[], map[0 := Pending(ASKED, HOUSE)], 0);
    SoldSuppression(Next(w, SALE), Sold(c));
  }

  lemma {:induction false} SoldSuppression(w: World, c: Contact)
    requires w.db.contacts == map[LEAD := c] && w.pending == map[0 := Pending(ASKED, HOUSE)] && c.owner == BUYER
    ensures SuppressionSlips(w, SuppressWrite(0))
    ensures var after := Next(w, SuppressWrite(0));
            LEAD in after.db.contacts && after.db.contacts[LEAD].owner == BUYER && after.db.contacts[LEAD].doNotCall
  {
    assert SuppressAs(w.db, w.now, ASKED, HOUSE) == Flag(w.db, w.now, ASKED);
  }

  lemma {:induction false} SuppressionReads(w: World, c: Contact)
    requires Scene(w, c, [CLEAN], 0, map[], map[]) && c.owner == HOUSE
    ensures Scene(Next(w, SuppressRead(0, ASKED)), c, [CLEAN], 0, map[], map[0 := Pending(ASKED, HOUSE)])
  {
    assert ASKED.reason[0] == 'a';
  }
}
