/** Every run of the wave lifecycle and of any number of drop attempts, interleaved transaction by
    transaction, killed and resumed at will: what prints, what is recorded and what "sent" means. */
module DropRuns {
  import opened Types
  import opened Audience
  import opened Split
  import opened Waves
  import opened Drop
  import Attribution

  /** `attempts` are the calls of execute_wave still alive and `progress` how many contacts each has
      finished; `crashes` is how many have died, and `sentTo` the audience of the call that last marked
      a wave sent. */
  datatype World = World(
    plant: Plant, now: Time, attempts: map<Id, Attempt>, progress: map<Id, nat>, crashes: nat, sentTo: map<Id, seq<Id>>)

  function Finished(progress: map<Id, nat>, id: Id): nat {
    if id in progress then progress[id] else 0
  }

  datatype Outcome = Commits | DiesUnprinted | DiesPrinted

  /** What other parts of the service write meanwhile. */
  datatype Write =
    | LeadsChange(leads: Leads)
    | Ingest(e: Event)
    | Delivery(code: Code, isReturn: bool)
    | Lifecycle(verb: Verb)

  /** The transactions of a drop. A start comes with what the wave's rule resolved to; nothing below
      depends on what that is. */
  datatype Move =
    | Start(attempt: Id, wave: Id, audience: seq<Id>)
    | PieceStep(attempt: Id, answer: Receipt, outcome: Outcome)
    | Finish(attempt: Id)

  datatype Step = Tick(seconds: nat) | Written(write: Write) | Moved(move: Move)

  /** Feeds do not speak for the drop. */
  predicate IsOutside(e: Event) {
    e.kind != PieceSubmitted && (e.external.Some? ==> !e.external.value.SubmittedKey?)
  }

  function Delivered(piece: Piece, isReturn: bool): Piece {
    piece.(status := Attribution.StatusAfter(piece.status, if isReturn then PieceReturned else PieceDelivered))
  }

  predicate PieceReady(w: World, attempt: Id) {
    && attempt in w.attempts && Finished(w.progress, attempt) < |w.attempts[attempt].audience|
    && w.attempts[attempt].split != map[]
  }

  predicate FinishReady(w: World, attempt: Id) {
    && attempt in w.attempts && Finished(w.progress, attempt) == |w.attempts[attempt].audience|
    && w.attempts[attempt].wave in w.plant.desk.waves
  }

  function Next(w: World, step: Step): World {
    match step
    case Tick(seconds) => w.(now := w.now + seconds)
    case Written(write) => WithDesk(w, AfterWrite(w.plant.desk, w.now, write))
    case Moved(move) => AfterMove(w, move)
  }

  function AfterWrite(d: Desk, now: Time, write: Write): Desk {
    match write
    case LeadsChange(leads) => d.(leads := leads)
    case Ingest(e) => Ingested(d, e)
    case Delivery(code, isReturn) => AfterDelivery(d, code, isReturn)
    case Lifecycle(verb) => Apply(d, now, verb)
  }

  function AfterMove(w: World, move: Move): World {
    match move
    case Start(id, wave, audience) => AfterStart(w, id, wave, audience)
    case PieceStep(id, answer, outcome) => if PieceReady(w, id) then TakePiece(w, id, answer, outcome) else w
    case Finish(id) => if FinishReady(w, id) then MarkSent(w, id) else w
  }

  function AfterStart(w: World, id: Id, wave: Id, audience: seq<Id>): World {
    if id in w.attempts then w else
    match Begin(w.plant.desk, wave, audience)
    case Begun(a) => Started(w, id, a)
    case _ => w
  }

  function WithDesk(w: World, d: Desk): World {
    w.(plant := w.plant.(desk := d))
  }

  function Ingested(d: Desk, e: Event): Desk {
    if IsOutside(e) then d.(events := Append(d.events, e)) else d
  }

  function AfterDelivery(d: Desk, code: Code, isReturn: bool): Desk {
    if code !in d.pieces then d else d.(pieces := d.pieces[code := Delivered(d.pieces[code], isReturn)])
  }

  function Started(w: World, id: Id, a: Attempt): World {
    if a.wave !in w.plant.desk.waves then w else
    WithDesk(w, WithStatus(w.plant.desk, a.wave, Executing)).(
      attempts := w.attempts[id := a], progress := w.progress[id := 0])
  }

  function MarkSent(w: World, id: Id): World
    requires FinishReady(w, id)
  {
    var a := w.attempts[id];
    WithDesk(w, WithStatus(w.plant.desk, a.wave, Sent)).(attempts := w.attempts - {id}, sentTo := w.sentTo[a.wave := a.audience])
  }

  function TakePiece(w: World, id: Id, answer: Receipt, outcome: Outcome): World
    requires PieceReady(w, id)
  {
    var a := w.attempts[id];
    var contact := a.audience[Finished(w.progress, id)];
    match outcome
    case Commits =>
      w.(plant := CommitFor(w.plant, a, contact, answer, w.now),
         progress := w.progress[id := Finished(w.progress, id) + 1])
    case DiesUnprinted => w.(attempts := w.attempts - {id}, crashes := w.crashes + 1)
    case DiesPrinted =>
      w.(plant := w.plant.(prints := PrintsAfter(w.plant, a, contact, VariantFor(w.plant, a, contact), answer)),
         attempts := w.attempts - {id}, crashes := w.crashes + 1)
  }

  function Run(w: World, steps: seq<Step>): World {
    if steps == [] then w else Next(Run(w, steps[..|steps| - 1]), steps[|steps| - 1])
  }

  function Genesis(now: Time, assign: Assigner): World {
    World(Plant(Desk(map[], map[], map[], map[], []), [], assign), now, map[], map[], 0, map[])
  }

  // The invariant.

  /** How many piece.submitted events a piece has. */
  function SubmittedCount(events: seq<Event>, piece: Id): nat {
    if events == [] then 0 else
    SubmittedCount(events[..|events| - 1], piece)
      + if events[|events| - 1].kind == PieceSubmitted && events[|events| - 1].piece == Some(piece) then 1 else 0
  }

  /** The code belongs to a wave that was approved, and the creative is the approved creative of the
      variant the split gives the contact. */
  ghost predicate IsApprovedFor(d: Desk, assign: Assigner, code: Code, variant: Id, creative: Creative) {
    && code.wave in d.waves && d.waves[code.wave].approval.Some?
    && d.waves[code.wave].card.split != map[]
    && variant == assign(d.waves[code.wave].card.split, code.contact) && variant in d.waves[code.wave].card.split
    && variant in d.variants && creative == d.variants[variant].creative
  }

  /** An assignment picks one of the split's own variants. */
  ghost predicate IsAssignment(assign: Assigner) {
    forall split, contact :: split != map[] ==> assign(split, contact) in split
  }

  ghost predicate PieceSound(p: Plant, code: Code, piece: Piece) {
    && piece.contact == code.contact && piece.status != Created
    && PrintOf(p.prints, code).Some? && piece.receipt == Some(PrintOf(p.prints, code).value.receipt)
    && IsApprovedFor(p.desk, p.assign, code, piece.variant, PrintOf(p.prints, code).value.creative)
  }

  ghost predicate PiecesSound(p: Plant) {
    forall code :: code in p.desk.pieces ==> PieceSound(p, code, p.desk.pieces[code])
  }

  predicate IsRecorded(events: seq<Event>, piece: Id) {
    SubmittedCount(events, piece) == 1 && HasKey(events, System, SubmittedKey(piece))
  }

  predicate IsUnheardOf(events: seq<Event>, piece: Id) {
    SubmittedCount(events, piece) == 0 && !HasKey(events, System, SubmittedKey(piece))
  }

  /** Piece ids are unique, each has its one submission event, and no event names a later id. */
  ghost predicate Numbered(pieces: map<Code, Piece>, events: seq<Event>) {
    && (forall code :: code in pieces ==> pieces[code].id < |pieces| && IsRecorded(events, pieces[code].id))
    && (forall c, e :: c in pieces && e in pieces && c != e ==> pieces[c].id != pieces[e].id)
    && (forall id: Id :: id >= |pieces| ==> IsUnheardOf(events, id))
  }

  ghost predicate PrintSound(d: Desk, assign: Assigner, line: Print) {
    exists variant :: IsApprovedFor(d, assign, line.code, variant, line.creative)
  }

  /** No code is printed twice. */
  ghost predicate NoneTwice(prints: seq<Print>) {
    forall i, j :: 0 <= i < j < |prints| ==> prints[i].code != prints[j].code
  }

  ghost predicate PrintsSound(p: Plant) {
    && NoneTwice(p.prints)
    && (forall line :: line in p.prints ==> PrintSound(p.desk, p.assign, line))
  }

  /** Codes the vendor has printed and our tables have not recorded. */
  function Unrecorded(p: Plant): set<Code> {
    set i | 0 <= i < |p.prints| && p.prints[i].code !in p.desk.pieces :: p.prints[i].code
  }

  ghost predicate AttemptSound(d: Desk, a: Attempt, finished: nat) {
    && a.wave in d.waves && d.waves[a.wave].status in {Executing, Sent} && d.waves[a.wave].approval.Some?
    && a.split == d.waves[a.wave].card.split && a.split != map[]
    && a.creatives.Keys == a.split.Keys && a.split.Keys <= d.variants.Keys
    && (forall v :: v in a.split ==> a.creatives[v] == d.variants[v].creative)
    && finished <= |a.audience|
    && !IsDrift(d.waves[a.wave].approval.value.count, |a.audience|)
    && (forall k :: 0 <= k < finished ==> Code(a.wave, a.audience[k]) in d.pieces)
  }

  ghost predicate SentSound(d: Desk, sentTo: map<Id, seq<Id>>) {
    forall id :: id in d.waves && d.waves[id].status == Sent ==>
      && id in sentTo && d.waves[id].approval.Some?
      && !IsDrift(d.waves[id].approval.value.count, |sentTo[id]|)
      && forall k :: 0 <= k < |sentTo[id]| ==> Code(id, sentTo[id][k]) in d.pieces
  }

  ghost predicate AttemptsSound(d: Desk, attempts: map<Id, Attempt>, progress: map<Id, nat>) {
    forall id :: id in attempts ==> AttemptSound(d, attempts[id], Finished(progress, id))
  }

  ghost predicate Inv(w: World) {
    && DeskInv(w.plant.desk)
    && IsAssignment(w.plant.assign)
    && Numbered(w.plant.desk.pieces, w.plant.desk.events)
    && PiecesSound(w.plant)
    && PrintsSound(w.plant)
    && |Unrecorded(w.plant)| <= w.crashes
    && AttemptsSound(w.plant.desk, w.attempts, w.progress)
    && SentSound(w.plant.desk, w.sentTo)
  }

  /** What every step does to the tables: approvals are honoured, pieces stay, and a drop that has
      begun can only go on. */
  ghost predicate Advances(d: Desk, later: Desk) {
    && Honours(d, later)
    && d.pieces.Keys <= later.pieces.Keys
    && forall id :: id in d.waves && d.waves[id].status in {Executing, Sent} ==>
         later.waves[id].status in {d.waves[id].status, Sent}
  }

  /** What every step keeps. */
  ghost predicate Kept(w: World, after: World) {
    Inv(after) && Advances(w.plant.desk, after.plant.desk) && after.plant.assign == w.plant.assign
  }

  // Frames.

  lemma {:induction false} NothingMoved(w: World)
    requires Inv(w)
    ensures Kept(w, w)
  {
    HonoursSame(w.plant.desk, w.plant.desk);
  }

  lemma {:induction false} SplitIsFrozen(d: Desk, wave: Id, variant: Id)
    requires wave in d.waves && d.waves[wave].approval.Some? && variant in d.waves[wave].card.split
    ensures IsFrozen(d, variant)
  {
  }

  lemma {:induction false} ApprovedForStays(d: Desk, later: Desk, assign: Assigner, code: Code, variant: Id, creative: Creative)
    requires Honours(d, later) && IsApprovedFor(d, assign, code, variant, creative)
    ensures IsApprovedFor(later, assign, code, variant, creative)
  {
    SplitIsFrozen(d, code.wave, variant);
  }

  lemma {:induction false} AttemptsStay(d: Desk, later: Desk, attempts: map<Id, Attempt>, progress: map<Id, nat>)
    requires Advances(d, later) && AttemptsSound(d, attempts, progress)
    ensures AttemptsSound(later, attempts, progress)
  {
    forall id | id in attempts ensures AttemptSound(later, attempts[id], Finished(progress, id)) {
      AttemptStays(d, later, attempts[id], Finished(progress, id));
    }
  }

  lemma {:induction false} AttemptStays(d: Desk, later: Desk, a: Attempt, finished: nat)
    requires Advances(d, later) && AttemptSound(d, a, finished)
    ensures AttemptSound(later, a, finished)
  {
    forall v | v in a.split ensures v in later.variants && later.variants[v] == d.variants[v] {
      SplitIsFrozen(d, a.wave, v);
    }
  }

  lemma {:induction false} PrintStays(d: Desk, later: Desk, assign: Assigner, line: Print)
    requires Honours(d, later) && PrintSound(d, assign, line)
    ensures PrintSound(later, assign, line)
  {
    var variant :| IsApprovedFor(d, assign, line.code, variant, line.creative);
    ApprovedForStays(d, later, assign, line.code, variant, line.creative);
  }

  lemma {:induction false} PrintsStay(p: Plant, later: Plant)
    requires Honours(p.desk, later.desk) && PrintsSound(p) && later.prints == p.prints && later.assign == p.assign
    ensures PrintsSound(later)
  {
    forall line | line in later.prints ensures PrintSound(later.desk, later.assign, line) {
      PrintStays(p.desk, later.desk, p.assign, line);
    }
  }

  ghost predicate NoneNewlySent(d: Desk, later: Desk) {
    forall id :: id in later.waves && later.waves[id].status == Sent ==> id in d.waves && d.waves[id].status == Sent
  }

  lemma {:induction false} SentStays(d: Desk, later: Desk, sentTo: map<Id, seq<Id>>)
    requires Advances(d, later) && SentSound(d, sentTo) && NoneNewlySent(d, later)
    ensures SentSound(later, sentTo)
  {
  }

  lemma {:induction false} UnrecordedStays(p: Plant, later: Plant)
    requires later.prints == p.prints && p.desk.pieces.Keys <= later.desk.pieces.Keys
    ensures |Unrecorded(later)| <= |Unrecorded(p)|
  {
    assert Unrecorded(later) <= Unrecorded(p);
    SubsetSmaller(Unrecorded(later), Unrecorded(p));
  }

  /** Pieces and prints that are left alone, but for a delivery status, stay sound. */
  lemma {:induction false} PiecesStay(p: Plant, later: Plant)
    requires PiecesSound(p) && Honours(p.desk, later.desk) && later.prints == p.prints && later.assign == p.assign
    requires later.desk.pieces.Keys == p.desk.pieces.Keys
    requires forall code :: code in p.desk.pieces ==>
               later.desk.pieces[code] == p.desk.pieces[code].(status := later.desk.pieces[code].status)
               && later.desk.pieces[code].status != Created
    ensures PiecesSound(later)
  {
    forall code | code in later.desk.pieces ensures PieceSound(later, code, later.desk.pieces[code]) {
      assert PieceSound(p, code, p.desk.pieces[code]);
      ApprovedForStays(p.desk, later.desk, p.assign, code, p.desk.pieces[code].variant, PrintOf(p.prints, code).value.creative);
    }
  }

  lemma {:induction false} NoneCreated(p: Plant)
    requires PiecesSound(p)
    ensures AllSubmitted(p.desk)
  {
    forall code | code in p.desk.pieces ensures p.desk.pieces[code].status != Created {
      assert PieceSound(p, code, p.desk.pieces[code]);
    }
  }

  /** A write of another part of the service: it prints and records nothing, and moves at most the
      delivery statuses of pieces. */
  ghost predicate IsWrite(d: Desk, later: Desk) {
    && DeskInv(later) && Advances(d, later) && NoneNewlySent(d, later)
    && Numbered(later.pieces, later.events) && later.pieces.Keys == d.pieces.Keys
    && forall code :: code in d.pieces ==>
         later.pieces[code] == d.pieces[code].(status := later.pieces[code].status)
         && later.pieces[code].status != Created
  }

  /** Such a write leaves the whole invariant standing. */
  lemma {:induction false} WriteStays(w: World, later: Desk, after: World)
    requires Inv(w) && IsWrite(w.plant.desk, later) && after == WithDesk(w, later)
    ensures Kept(w, after)
  {
    var p := w.plant.(desk := later);
    PiecesStay(w.plant, p);
    PrintsStay(w.plant, p);
    UnrecordedStays(w.plant, p);
    AttemptsStay(w.plant.desk, later, w.attempts, w.progress);
    SentStays(w.plant.desk, later, w.sentTo);
  }

  ghost predicate AllSubmitted(d: Desk) {
    forall code :: code in d.pieces ==> d.pieces[code].status != Created
  }

  lemma {:induction false} WavesOnly(d: Desk, later: Desk)
    requires Numbered(d.pieces, d.events) && AllSubmitted(d)
    requires DeskInv(later) && Advances(d, later) && NoneNewlySent(d, later)
    requires later.pieces == d.pieces && later.events == d.events
    ensures IsWrite(d, later)
  {
  }

  // The steps.

  lemma {:induction false} HonoursSame(d: Desk, later: Desk)
    requires later.variants == d.variants && later.waves == d.waves
    ensures Honours(d, later) && (DeskInv(d) ==> DeskInv(later))
  {
    if DeskInv(d) {
      forall id | id in later.waves ensures WaveSound(later, later.waves[id]) {
        assert WaveSound(d, d.waves[id]);
      }
    }
  }

  lemma {:induction false} AppendOutside(events: seq<Event>, e: Event, piece: Id)
    requires IsOutside(e)
    ensures SubmittedCount(Append(events, e), piece) == SubmittedCount(events, piece)
    ensures HasKey(Append(events, e), System, SubmittedKey(piece)) <==> HasKey(events, System, SubmittedKey(piece))
  {
    var later := Append(events, e);
    if later != events {
      assert later[..|later| - 1] == events;
      if HasKey(events, System, SubmittedKey(piece)) {
        var i :| 0 <= i < |events| && events[i].source == System && events[i].external == Some(SubmittedKey(piece));
        assert later[i] == events[i];
      }
    }
  }

  lemma {:induction false} IngestNumbered(pieces: map<Code, Piece>, events: seq<Event>, e: Event)
    requires Numbered(pieces, events) && IsOutside(e)
    ensures Numbered(pieces, Append(events, e))
  {
    forall id: Id ensures IsRecorded(Append(events, e), id) <==> IsRecorded(events, id)
                  ensures IsUnheardOf(Append(events, e), id) <==> IsUnheardOf(events, id) {
      AppendOutside(events, e, id);
    }
  }

  lemma {:induction false} IngestIsWrite(d: Desk, e: Event)
    requires DeskInv(d) && Numbered(d.pieces, d.events) && AllSubmitted(d)
    ensures IsWrite(d, Ingested(d, e))
  {
    HonoursSame(d, Ingested(d, e));
    if IsOutside(e) {
      IngestNumbered(d.pieces, d.events, e);
    }
  }

  lemma {:induction false} DeliveryNumbered(pieces: map<Code, Piece>, events: seq<Event>, code: Code, piece: Piece)
    requires Numbered(pieces, events) && code in pieces && piece.id == pieces[code].id
    ensures Numbered(pieces[code := piece], events)
  {
    assert pieces[code := piece].Keys == pieces.Keys;
    assert |pieces[code := piece].Keys| == |pieces[code := piece]|;
  }

  lemma {:induction false} DeliveryIsWrite(d: Desk, code: Code, isReturn: bool)
    requires DeskInv(d) && Numbered(d.pieces, d.events) && AllSubmitted(d)
    ensures IsWrite(d, AfterDelivery(d, code, isReturn))
  {
    HonoursSame(d, AfterDelivery(d, code, isReturn));
    DeliveryStatuses(d, code, isReturn);
  }

  lemma {:induction false} DeliveryStatuses(d: Desk, code: Code, isReturn: bool)
    requires Numbered(d.pieces, d.events) && AllSubmitted(d)
    ensures var later := AfterDelivery(d, code, isReturn);
            && Numbered(later.pieces, later.events) && later.pieces.Keys == d.pieces.Keys
            && forall c :: c in d.pieces ==>
                 later.pieces[c] == d.pieces[c].(status := later.pieces[c].status) && later.pieces[c].status != Created
  {
    if code in d.pieces {
      DeliveryNumbered(d.pieces, d.events, code, Delivered(d.pieces[code], isReturn));
      OneStatus(d.pieces, code, Delivered(d.pieces[code], isReturn));
    }
  }

  lemma {:induction false} OneStatus(pieces: map<Code, Piece>, code: Code, piece: Piece)
    requires code in pieces && piece == pieces[code].(status := piece.status) && piece.status != Created
    requires forall c :: c in pieces ==> pieces[c].status != Created
    ensures var later := pieces[code := piece];
            && later.Keys == pieces.Keys
            && forall c :: c in pieces ==> later[c] == pieces[c].(status := later[c].status) && later[c].status != Created
  {
  }

  lemma {:induction false} VerbAdvances(d: Desk, now: Time, verb: Verb)
    requires DeskInv(d)
    ensures var later := Apply(d, now, verb);
            && DeskInv(later) && Advances(d, later)
            && later.pieces == d.pieces && later.events == d.events
            && NoneNewlySent(d, later)
  {
    VerbHonours(d, now, verb);
    if Apply(d, now, verb) != d {
      ChangeAdvances(d, now, verb);
    }
  }

  lemma {:induction false} ChangeAdvances(d: Desk, now: Time, verb: Verb)
    requires DeskInv(d) && IdIsNew(d, verb) && Refusal(d, now, verb).None?
    ensures var later := Change(d, now, verb);
            && later.pieces == d.pieces && later.events == d.events
            && (forall id :: id in d.waves && d.waves[id].status in {Executing, Sent} ==>
                  id in later.waves && later.waves[id].status == d.waves[id].status)
            && NoneNewlySent(d, later)
  {
    if verb.ApproveWave? {
      DraftToApprove(d, now, verb.id, verb.seen, verb.audience);
    }
  }

  lemma {:induction false} DraftToApprove(d: Desk, now: Time, id: Id, seen: Option<Fingerprint>, audience: seq<Id>)
    requires ApprovalRefusal(d, now, id, seen, audience).None?
    ensures d.waves[id].status == Draft
  {
  }

  lemma {:induction false} AfterWriteIsWrite(d: Desk, now: Time, write: Write)
    requires DeskInv(d) && Numbered(d.pieces, d.events) && AllSubmitted(d)
    ensures IsWrite(d, AfterWrite(d, now, write))
  {
    match write
    case LeadsChange(leads) => HonoursSame(d, d.(leads := leads));
    case Ingest(e) => IngestIsWrite(d, e);
    case Delivery(code, isReturn) => DeliveryIsWrite(d, code, isReturn);
    case Lifecycle(verb) =>
      VerbAdvances(d, now, verb);
      WavesOnly(d, Apply(d, now, verb));
  }

  lemma {:induction false} WithStatusHonours(d: Desk, id: Id, status: Status)
    requires DeskInv(d) && id in d.waves && d.waves[id].approval.Some? && status in {Executing, Sent}
    requires d.waves[id].status == Sent ==> status == Sent
    ensures var later := WithStatus(d, id, status);
            DeskInv(later) && Advances(d, later)
  {
    assert WaveSound(d, d.waves[id]);
    WaveChange(d, id, d.waves[id].(status := status));
  }

  /** A call that is let in has read exactly what was approved. */
  ghost predicate ReadsApproved(d: Desk, a: Attempt) {
    && a.wave in d.waves
    && a.split == d.waves[a.wave].card.split && a.split != map[] && a.split.Keys <= d.variants.Keys
    && a.creatives == CreativesOf(d, a.split)
    && d.waves[a.wave].status in {Approved, Executing} && d.waves[a.wave].approval.Some?
    && !IsDrift(d.waves[a.wave].approval.value.count, |a.audience|)
  }

  lemma {:induction false} StartKeeps(w: World, id: Id, a: Attempt, after: World)
    requires Inv(w) && ReadsApproved(w.plant.desk, a) && after == Started(w, id, a)
    ensures Kept(w, after)
  {
    var later := WithStatus(w.plant.desk, a.wave, Executing);
    StartIsWrite(w, a);
    FreshAttempt(w.plant.desk, a);
    WriteStays(w, later, WithDesk(w, later));
    OneMoreAttempt(w, WithDesk(w, later), id, a, after);
  }

  lemma {:induction false} StartIsWrite(w: World, a: Attempt)
    requires Inv(w) && ReadsApproved(w.plant.desk, a)
    ensures IsWrite(w.plant.desk, WithStatus(w.plant.desk, a.wave, Executing))
  {
    WithStatusHonours(w.plant.desk, a.wave, Executing);
    NoneCreated(w.plant);
    WavesOnly(w.plant.desk, WithStatus(w.plant.desk, a.wave, Executing));
  }

  lemma {:induction false} OneMoreAttempt(w: World, begun: World, id: Id, a: Attempt, after: World)
    requires Kept(w, begun) && AttemptSound(begun.plant.desk, a, 0)
    requires after == begun.(attempts := begun.attempts[id := a], progress := begun.progress[id := 0])
    ensures Kept(w, after)
  {
  }

  lemma {:induction false} FreshAttempt(d: Desk, a: Attempt)
    requires ReadsApproved(d, a)
    ensures AttemptSound(WithStatus(d, a.wave, Executing), a, 0)
  {
  }

  lemma {:induction false} FinishKeeps(w: World, id: Id, after: World)
    requires Inv(w) && FinishReady(w, id) && after == MarkSent(w, id)
    ensures Kept(w, after)
  {
    var a := w.attempts[id];
    assert AttemptSound(w.plant.desk, a, Finished(w.progress, id));
    WithStatusHonours(w.plant.desk, a.wave, Sent);
    FinishTables(w, a, WithStatus(w.plant.desk, a.wave, Sent), w.attempts - {id}, after);
  }

  lemma {:induction false} FinishTables(w: World, a: Attempt, later: Desk, attempts: map<Id, Attempt>, after: World)
    requires Inv(w) && AttemptSound(w.plant.desk, a, |a.audience|)
    requires later == WithStatus(w.plant.desk, a.wave, Sent) && DeskInv(later) && Advances(w.plant.desk, later)
    requires AttemptsSound(w.plant.desk, attempts, w.progress)
    requires after == World(w.plant.(desk := later), w.now, attempts, w.progress, w.crashes, w.sentTo[a.wave := a.audience])
    ensures Kept(w, after)
  {
    FinishedIsSent(w.plant.desk, a, w.sentTo);
    NoneCreated(w.plant);
    PiecesStay(w.plant, after.plant);
    PrintsStay(w.plant, after.plant);
    UnrecordedStays(w.plant, after.plant);
    AttemptsStay(w.plant.desk, later, attempts, w.progress);
  }

  /** A call that has got through its audience leaves every one of its contacts a recorded piece. */
  lemma {:induction false} FinishedIsSent(d: Desk, a: Attempt, sentTo: map<Id, seq<Id>>)
    requires AttemptSound(d, a, |a.audience|) && SentSound(d, sentTo)
    ensures SentSound(WithStatus(d, a.wave, Sent), sentTo[a.wave := a.audience])
  {
  }

  // One piece.

  lemma {:induction false} CreativeIsApproved(p: Plant, a: Attempt, finished: nat, contact: Id)
    requires AttemptSound(p.desk, a, finished) && IsAssignment(p.assign)
    ensures IsApprovedFor(p.desk, p.assign, Code(a.wave, contact), VariantFor(p, a, contact), CreativeFor(a, VariantFor(p, a, contact)))
  {
  }

  lemma {:induction false} SubmitKeeps(p: Plant, code: Code, variant: Id, creative: Creative, answer: Receipt)
    requires PrintsSound(p) && IsApprovedFor(p.desk, p.assign, code, variant, creative)
    ensures var prints := Submit(p.prints, code, creative, answer);
            && PrintsSound(p.(prints := prints))
            && (forall other :: PrintOf(p.prints, other).Some? ==> PrintOf(prints, other) == PrintOf(p.prints, other))
            && IsApprovedFor(p.desk, p.assign, code, variant, PrintOf(prints, code).value.creative)
  {
    if PrintOf(p.prints, code).Some? {
      PrintedBefore(p, code, variant);
    } else {
      PrintedNow(p, code, variant, creative, answer);
    }
  }

  lemma {:induction false} PrintedBefore(p: Plant, code: Code, variant: Id)
    requires PrintsSound(p) && PrintOf(p.prints, code).Some?
    requires code.wave in p.desk.waves && p.desk.waves[code.wave].card.split != map[]
    requires variant == p.assign(p.desk.waves[code.wave].card.split, code.contact)
    ensures IsApprovedFor(p.desk, p.assign, code, variant, PrintOf(p.prints, code).value.creative)
  {
    assert PrintSound(p.desk, p.assign, PrintOf(p.prints, code).value);
  }

  lemma {:induction false} PrintedNow(p: Plant, code: Code, variant: Id, creative: Creative, answer: Receipt)
    requires PrintsSound(p) && IsApprovedFor(p.desk, p.assign, code, variant, creative) && PrintOf(p.prints, code).None?
    ensures var prints := p.prints + [Print(code, answer, creative)];
            && PrintsSound(p.(prints := prints))
            && PrintOf(prints, code) == Some(Print(code, answer, creative))
            && forall other :: other != code ==> PrintOf(prints, other) == PrintOf(p.prints, other)
  {
    var line := Print(code, answer, creative);
    assert PrintSound(p.desk, p.assign, line);
    LogGrows(p.prints, line);
    SoundLogGrows(p, line);
  }

  lemma {:induction false} LogGrows(prints: seq<Print>, line: Print)
    ensures PrintOf(prints + [line], line.code) == Some(line)
    ensures forall other :: other != line.code ==> PrintOf(prints + [line], other) == PrintOf(prints, other)
  {
    assert (prints + [line])[..|prints|] == prints;
  }

  lemma {:induction false} NoneTwiceGrows(prints: seq<Print>, line: Print)
    requires NoneTwice(prints) && PrintOf(prints, line.code).None?
    ensures NoneTwice(prints + [line])
  {
  }

  lemma {:induction false} SoundLogGrows(p: Plant, line: Print)
    requires PrintsSound(p) && PrintSound(p.desk, p.assign, line) && PrintOf(p.prints, line.code).None?
    ensures PrintsSound(p.(prints := p.prints + [line]))
  {
    NoneTwiceGrows(p.prints, line);
    forall other | other in p.prints + [line] ensures PrintSound(p.desk, p.assign, other) {
      assert other in p.prints || other == line;
    }
  }

  lemma {:induction false} AppendSubmitted(events: seq<Event>, piece: Piece, contact: Id, now: Time, id: Id)
    requires IsUnheardOf(events, piece.id)
    ensures var later := Append(events, SubmittedEvent(piece, contact, now));
            && SubmittedCount(later, id) == (if id == piece.id then 1 else SubmittedCount(events, id))
            && (HasKey(later, System, SubmittedKey(id)) <==> id == piece.id || HasKey(events, System, SubmittedKey(id)))
  {
    var e := SubmittedEvent(piece, contact, now);
    var later := Append(events, e);
    if later != events {
      assert later[..|later| - 1] == events;
      assert later[|events|] == e;
      if HasKey(events, System, SubmittedKey(id)) {
        var i :| 0 <= i < |events| && events[i].source == System && events[i].external == Some(SubmittedKey(id));
        assert later[i] == events[i];
      }
    }
  }

  /** Resuming over a piece that is already there changes nothing at all. */
  lemma {:induction false} AgainIsNothing(p: Plant, a: Attempt, contact: Id, variant: Id, answer: Receipt, now: Time)
    requires Code(a.wave, contact) in p.desk.pieces && p.desk.pieces[Code(a.wave, contact)].status != Created
    requires IsRecorded(p.desk.events, p.desk.pieces[Code(a.wave, contact)].id)
    ensures Commit(p, a, contact, variant, answer, now) == p
  {
    var code := Code(a.wave, contact);
    assert p.desk.pieces[code := p.desk.pieces[code]] == p.desk.pieces;
  }

  lemma {:induction false} NewNumbered(pieces: map<Code, Piece>, events: seq<Event>, code: Code, row: Piece, contact: Id, now: Time)
    requires Numbered(pieces, events) && code !in pieces && row.id == |pieces|
    ensures Numbered(pieces[code := row], Append(events, SubmittedEvent(row, contact, now)))
  {
    assert |pieces[code := row]| == |pieces| + 1;
    var later := Append(events, SubmittedEvent(row, contact, now));
    forall id: Id | id != row.id ensures IsRecorded(later, id) <==> IsRecorded(events, id)
                                 ensures IsUnheardOf(later, id) <==> IsUnheardOf(events, id) {
      AppendSubmitted(events, row, contact, now, id);
    }
    AppendSubmitted(events, row, contact, now, row.id);
  }

  /** A new piece takes its receipt from the vendor's log. */
  lemma {:induction false} NewPieceSound(p: Plant, prints: seq<Print>, code: Code, row: Piece, later: Plant)
    requires PiecesSound(p) && PrintsSound(p.(prints := prints)) && Honours(p.desk, later.desk) && later.assign == p.assign
    requires forall other :: PrintOf(p.prints, other).Some? ==> PrintOf(prints, other) == PrintOf(p.prints, other)
    requires PrintOf(prints, code).Some? && IsApprovedFor(p.desk, p.assign, code, row.variant, PrintOf(prints, code).value.creative)
    requires row.contact == code.contact && row.status == Submitted
    requires row.receipt == Some(PrintOf(prints, code).value.receipt)
    requires later.prints == prints && later.desk.pieces == p.desk.pieces[code := row]
    ensures PiecesSound(later) && PrintsSound(later)
  {
    PrintsStay(p.(prints := prints), later);
    ApprovedForStays(p.desk, later.desk, p.assign, code, row.variant, PrintOf(prints, code).value.creative);
    forall c | c in later.desk.pieces ensures PieceSound(later, c, later.desk.pieces[c]) {
      if c != code {
        assert PieceSound(p, c, p.desk.pieces[c]);
        ApprovedForStays(p.desk, later.desk, p.assign, c, p.desk.pieces[c].variant, PrintOf(p.prints, c).value.creative);
      }
    }
  }

  /** The vendor's side and ours of one new piece. */
  lemma {:induction false} NewPiece(p: Plant, a: Attempt, contact: Id, variant: Id, answer: Receipt, now: Time)
    requires Numbered(p.desk.pieces, p.desk.events) && PiecesSound(p) && PrintsSound(p)
    requires Code(a.wave, contact) !in p.desk.pieces
    requires IsApprovedFor(p.desk, p.assign, Code(a.wave, contact), variant, CreativeFor(a, variant))
    ensures var later := Commit(p, a, contact, variant, answer, now);
            && Numbered(later.desk.pieces, later.desk.events) && PiecesSound(later) && PrintsSound(later)
            && Honours(p.desk, later.desk)
            && Unrecorded(later) <= Unrecorded(p)
  {
    var code := Code(a.wave, contact);
    var prints := Submit(p.prints, code, CreativeFor(a, variant), answer);
    var row := RowAfter(p, a, contact, variant, answer);
    var later := Commit(p, a, contact, variant, answer, now);
    SubmitKeeps(p, code, variant, CreativeFor(a, variant), answer);
    SubmitUnrecorded(p, code, CreativeFor(a, variant), answer);
    HonoursSame(p.desk, later.desk);
    NewNumbered(p.desk.pieces, p.desk.events, code, row, contact, now);
    NewPieceSound(p, prints, code, row, later);
  }

  lemma {:induction false} SubmitUnrecorded(p: Plant, code: Code, creative: Creative, answer: Receipt)
    ensures var later := p.(prints := Submit(p.prints, code, creative, answer));
            && Unrecorded(later) <= Unrecorded(p) + {code}
            && forall d: Desk :: d.pieces.Keys == p.desk.pieces.Keys + {code} ==>
                 Unrecorded(later.(desk := d)) <= Unrecorded(p)
  {
    var later := p.(prints := Submit(p.prints, code, creative, answer));
    forall c | c in Unrecorded(later) ensures c in Unrecorded(p) + {code} {
      UnrecordedBefore(p, later, code, c);
    }
    forall d: Desk | d.pieces.Keys == p.desk.pieces.Keys + {code} ensures Unrecorded(later.(desk := d)) <= Unrecorded(p) {
      forall c | c in Unrecorded(later.(desk := d)) ensures c in Unrecorded(p) {
        UnrecordedBefore(p, later, code, c);
      }
    }
  }

  lemma {:induction false} UnrecordedBefore(p: Plant, later: Plant, code: Code, c: Code)
    requires p.prints <= later.prints && forall i :: |p.prints| <= i < |later.prints| ==> later.prints[i].code == code
    requires exists i :: 0 <= i < |later.prints| && later.prints[i].code == c
    ensures c != code && c !in p.desk.pieces ==> c in Unrecorded(p)
  {
    var i :| 0 <= i < |later.prints| && later.prints[i].code == c;
    assert i < |p.prints| ==> p.prints[i] == later.prints[i];
  }

  /** A committed piece transaction: the code has a sound piece, and nothing else is disturbed. */
  ghost predicate IsCommit(p: Plant, later: Plant, code: Code) {
    && Numbered(later.desk.pieces, later.desk.events) && PiecesSound(later) && PrintsSound(later)
    && DeskInv(later.desk) && Advances(p.desk, later.desk) && NoneNewlySent(p.desk, later.desk)
    && code in later.desk.pieces && Unrecorded(later) <= Unrecorded(p) && later.assign == p.assign
  }

  lemma {:induction false} CommitTables(p: Plant, a: Attempt, finished: nat, contact: Id, answer: Receipt, now: Time, later: Plant)
    requires DeskInv(p.desk) && Numbered(p.desk.pieces, p.desk.events) && PiecesSound(p) && PrintsSound(p)
    requires AttemptSound(p.desk, a, finished) && IsAssignment(p.assign)
    requires later == CommitFor(p, a, contact, answer, now)
    ensures IsCommit(p, later, Code(a.wave, contact))
  {
    var code := Code(a.wave, contact);
    CreativeIsApproved(p, a, finished, contact);
    HonoursSame(p.desk, later.desk);
    if code in p.desk.pieces {
      assert PieceSound(p, code, p.desk.pieces[code]);
      AgainIsNothing(p, a, contact, VariantFor(p, a, contact), answer, now);
    } else {
      NewPiece(p, a, contact, VariantFor(p, a, contact), answer, now);
    }
  }

  /** The contact whose turn it is. */
  function NextCode(w: World, id: Id): Code
    requires PieceReady(w, id)
  {
    Code(w.attempts[id].wave, w.attempts[id].audience[Finished(w.progress, id)])
  }

  ghost predicate Progressed(w: World, id: Id, after: World)
    requires PieceReady(w, id)
  {
    && IsCommit(w.plant, after.plant, NextCode(w, id))
    && after == w.(plant := after.plant, progress := w.progress[id := Finished(w.progress, id) + 1])
  }

  lemma {:induction false} CommitKeeps(w: World, id: Id, answer: Receipt, after: World)
    requires Inv(w) && PieceReady(w, id) && after == TakePiece(w, id, answer, Commits)
    ensures Progressed(w, id, after)
  {
    var a := w.attempts[id];
    var finished := Finished(w.progress, id);
    assert AttemptSound(w.plant.desk, a, finished);
    CommitTables(w.plant, a, finished, a.audience[finished], answer, w.now, after.plant);
  }

  lemma {:induction false} CommitWorld(w: World, id: Id, after: World)
    requires Inv(w) && PieceReady(w, id) && Progressed(w, id, after)
    ensures Kept(w, after)
  {
    AttemptsProgress(w, id, after);
    SentStays(w.plant.desk, after.plant.desk, w.sentTo);
    SubsetSmaller(Unrecorded(after.plant), Unrecorded(w.plant));
  }

  lemma {:induction false} AttemptsProgress(w: World, id: Id, after: World)
    requires AttemptsSound(w.plant.desk, w.attempts, w.progress) && PieceReady(w, id)
    requires Advances(w.plant.desk, after.plant.desk) && NextCode(w, id) in after.plant.desk.pieces
    requires after.attempts == w.attempts && after.progress == w.progress[id := Finished(w.progress, id) + 1]
    ensures AttemptsSound(after.plant.desk, after.attempts, after.progress)
  {
    AttemptsStay(w.plant.desk, after.plant.desk, w.attempts, w.progress);
    OneMoreFinished(after.plant.desk, w.attempts, w.progress, id);
  }

  lemma {:induction false} OneMoreFinished(d: Desk, attempts: map<Id, Attempt>, progress: map<Id, nat>, id: Id)
    requires AttemptsSound(d, attempts, progress) && id in attempts && Finished(progress, id) < |attempts[id].audience|
    requires Code(attempts[id].wave, attempts[id].audience[Finished(progress, id)]) in d.pieces
    ensures AttemptsSound(d, attempts, progress[id := Finished(progress, id) + 1])
  {
    assert AttemptSound(d, attempts[id], Finished(progress, id));
  }

  lemma {:induction false} DeathKeeps(w: World, id: Id, answer: Receipt, outcome: Outcome, after: World)
    requires Inv(w) && PieceReady(w, id) && outcome != Commits && after == TakePiece(w, id, answer, outcome)
    ensures Kept(w, after)
  {
    var a := w.attempts[id];
    var contact := a.audience[Finished(w.progress, id)];
    HonoursSame(w.plant.desk, w.plant.desk);
    if outcome == DiesPrinted && Row(w.plant.desk, a, contact, VariantFor(w.plant, a, contact)).status == Created {
      CreativeIsApproved(w.plant, a, Finished(w.progress, id), contact);
      DiesPrintedKeeps(w.plant, Code(a.wave, contact), VariantFor(w.plant, a, contact), CreativeFor(a, VariantFor(w.plant, a, contact)), answer);
    }
  }

  lemma {:induction false} DiesPrintedKeeps(p: Plant, code: Code, variant: Id, creative: Creative, answer: Receipt)
    requires PiecesSound(p) && PrintsSound(p) && IsApprovedFor(p.desk, p.assign, code, variant, creative)
    ensures var later := p.(prints := Submit(p.prints, code, creative, answer));
            PiecesSound(later) && PrintsSound(later) && |Unrecorded(later)| <= |Unrecorded(p)| + 1
  {
    var later := p.(prints := Submit(p.prints, code, creative, answer));
    SubmitKeeps(p, code, variant, creative, answer);
    SubmitUnrecorded(p, code, creative, answer);
    forall c | c in later.desk.pieces ensures PieceSound(later, c, later.desk.pieces[c]) {
      assert PieceSound(p, c, p.desk.pieces[c]);
    }
    SubsetSmaller(Unrecorded(later), Unrecorded(p) + {code});
  }

  lemma {:induction false} StartMoveKeeps(w: World, id: Id, wave: Id, audience: seq<Id>, after: World)
    requires Inv(w) && after == AfterStart(w, id, wave, audience)
    ensures Kept(w, after)
  {
    if id !in w.attempts && Begin(w.plant.desk, wave, audience).Begun? {
      BegunHasVariants(w.plant.desk, wave, audience);
      StartKeeps(w, id, Begin(w.plant.desk, wave, audience).attempt, after);
    } else {
      NothingMoved(w);
    }
  }

  lemma {:induction false} TakePieceKeeps(w: World, id: Id, answer: Receipt, outcome: Outcome, after: World)
    requires Inv(w) && PieceReady(w, id) && after == TakePiece(w, id, answer, outcome)
    ensures Kept(w, after)
  {
    if outcome == Commits {
      CommitKeeps(w, id, answer, after);
      CommitWorld(w, id, after);
    } else {
      DeathKeeps(w, id, answer, outcome, after);
    }
  }

  lemma {:induction false} MoveKeeps(w: World, move: Move, after: World)
    requires Inv(w) && after == AfterMove(w, move)
    ensures Kept(w, after)
  {
    match move
    case Start(id, wave, audience) => StartMoveKeeps(w, id, wave, audience, after);
    case PieceStep(id, answer, outcome) =>
      if PieceReady(w, id) {
        TakePieceKeeps(w, id, answer, outcome, after);
      } else {
        NothingMoved(w);
      }
    case Finish(id) =>
      if FinishReady(w, id) {
        FinishKeeps(w, id, after);
      } else {
        NothingMoved(w);
      }
  }

  lemma {:induction false} StepKeeps(w: World, step: Step)
    requires Inv(w)
    ensures Kept(w, Next(w, step))
  {
    match step
    case Tick(_) => NothingMoved(w);
    case Written(write) =>
      NoneCreated(w.plant);
      AfterWriteIsWrite(w.plant.desk, w.now, write);
      WriteStays(w, AfterWrite(w.plant.desk, w.now, write), Next(w, step));
    case Moved(move) => MoveKeeps(w, move, Next(w, step));
  }

  lemma {:induction false} HoldsEverywhere(now: Time, assign: Assigner, steps: seq<Step>)
    requires IsAssignment(assign)
    ensures Inv(Run(Genesis(now, assign), steps)) && Run(Genesis(now, assign), steps).plant.assign == assign
  {
    if steps != [] {
      HoldsEverywhere(now, assign, steps[..|steps| - 1]);
      StepKeeps(Run(Genesis(now, assign), steps[..|steps| - 1]), steps[|steps| - 1]);
    }
  }

  // The main results.

  /** However often drops are killed, resumed or run at the same time: no code prints twice, every
      recorded piece carries the vendor's answer for its own code and has exactly one submission event,
      and the codes printed but not recorded are no more than the deaths so far. */
  lemma {:induction false} EachCodePrintsOnce(now: Time, assign: Assigner, steps: seq<Step>)
    requires IsAssignment(assign)
    ensures var w := Run(Genesis(now, assign), steps);
            && NoneTwice(w.plant.prints)
            && |Unrecorded(w.plant)| <= w.crashes
            && forall code :: code in w.plant.desk.pieces ==>
                 var piece := w.plant.desk.pieces[code];
                 && PrintOf(w.plant.prints, code).Some?
                 && piece.receipt == Some(PrintOf(w.plant.prints, code).value.receipt)
                 && SubmittedCount(w.plant.desk.events, piece.id) == 1
                 && piece.contact == code.contact && piece.status != Created
  {
    HoldsEverywhere(now, assign, steps);
    var w := Run(Genesis(now, assign), steps);
    forall code | code in w.plant.desk.pieces ensures PieceSound(w.plant, code, w.plant.desk.pieces[code]) {
    }
  }

  /** A wave is sent only when the audience of the call that sent it, within a tenth of the approved
      size, has a recorded piece for every contact. */
  lemma {:induction false} SentMeansEveryone(now: Time, assign: Assigner, steps: seq<Step>, wave: Id, contact: Id)
    requires IsAssignment(assign)
    requires var w := Run(Genesis(now, assign), steps);
             wave in w.plant.desk.waves && w.plant.desk.waves[wave].status == Sent
    ensures var w := Run(Genesis(now, assign), steps);
            && wave in w.sentTo
            && (contact in w.sentTo[wave] ==> Code(wave, contact) in w.plant.desk.pieces)
            && w.plant.desk.waves[wave].approval.Some?
            && var approved := w.plant.desk.waves[wave].approval.value.count;
            approved > 0 && 9 * approved <= 10 * |w.sentTo[wave]| <= 11 * approved
  {
    HoldsEverywhere(now, assign, steps);
    var d := Run(Genesis(now, assign), steps).plant.desk;
    assert WaveSound(d, d.waves[wave]);
  }

  lemma {:induction false} RunConcat(w: World, a: seq<Step>, b: seq<Step>)
    ensures Run(w, a + b) == Run(Run(w, a), b)
  {
    if b == [] {
      assert a + b == a;
    } else {
      assert (a + b)[..|a + b| - 1] == a + b[..|b| - 1];
      RunConcat(w, a, b[..|b| - 1]);
    }
  }

  lemma {:induction false} AdvancesTransitive(a: Desk, b: Desk, c: Desk)
    requires Advances(a, b) && Advances(b, c)
    ensures Advances(a, c)
  {
    HonoursTransitive(a, b, c);
  }

  /** From any reachable state on, approvals are honoured: the card, the approval and every creative of
      an approved wave are fixed for good, whatever else happens. */
  lemma {:induction false} ApprovalsAreForever(now: Time, assign: Assigner, before: seq<Step>, after: seq<Step>)
    requires IsAssignment(assign)
    ensures Advances(Run(Genesis(now, assign), before).plant.desk, Run(Genesis(now, assign), before + after).plant.desk)
  {
    HoldsEverywhere(now, assign, before);
    RunConcat(Genesis(now, assign), before, after);
    OnwardAdvances(Run(Genesis(now, assign), before), after);
  }

  lemma {:induction false} OnwardAdvances(w: World, after: seq<Step>)
    requires Inv(w)
    ensures Kept(w, Run(w, after))
  {
    if after == [] {
      NothingMoved(w);
    } else {
      var before := Run(w, after[..|after| - 1]);
      OnwardAdvances(w, after[..|after| - 1]);
      StepKeeps(before, after[|after| - 1]);
      KeptTwice(w, before, Next(before, after[|after| - 1]));
    }
  }

  lemma {:induction false} KeptTwice(a: World, b: World, c: World)
    requires Kept(a, b) && Kept(b, c)
    ensures Kept(a, c)
  {
    AdvancesTransitive(a.plant.desk, b.plant.desk, c.plant.desk);
  }

  /** What prints is what was previewed: if a wave was approved with the fingerprint of a preview,
      then ever after each of its printed pieces bears the creative that preview showed for the variant
      its split gives that contact. */
  lemma {:induction false} WhatPrintsWasPreviewed(now: Time, assign: Assigner, before: seq<Step>, approve: Verb, after: seq<Step>, seen: Fingerprint, line: Print)
    requires IsAssignment(assign)
    requires approve.ApproveWave? && approve.seen == Some(seen)
    requires var w := Run(Genesis(now, assign), before); Refusal(w.plant.desk, w.now, approve).None?
    requires line in Run(Genesis(now, assign), before + [Written(Lifecycle(approve))] + after).plant.prints && line.code.wave == approve.id
    ensures var variant := assign(seen.split, line.code.contact);
            variant in seen.creatives && line.creative == seen.creatives[variant]
  {
    var w := Run(Genesis(now, assign), before);
    var steps := before + [Written(Lifecycle(approve))];
    RunSnoc(Genesis(now, assign), before, Written(Lifecycle(approve)));
    HoldsEverywhere(now, assign, steps + after);
    ApprovalsAreForever(now, assign, steps, after);
    ApprovedWithPreview(w.plant.desk, w.now, approve, seen);
    PrintedAsApproved(Run(Genesis(now, assign), steps).plant.desk, Run(Genesis(now, assign), steps + after).plant.desk, assign, seen, line);
  }

  lemma {:induction false} ApprovedWithPreview(d: Desk, now: Time, approve: Verb, seen: Fingerprint)
    requires approve.ApproveWave? && approve.seen == Some(seen) && Refusal(d, now, approve).None?
    ensures var later := Apply(d, now, approve);
            && approve.id in later.waves && later.waves[approve.id].approval.Some?
            && later.waves[approve.id].card.split == seen.split && seen.split.Keys <= later.variants.Keys
            && seen.creatives == CreativesOf(later, seen.split)
  {
  }

  lemma {:induction false} PrintedAsApproved(d: Desk, later: Desk, assign: Assigner, seen: Fingerprint, line: Print)
    requires Honours(d, later) && PrintSound(later, assign, line)
    requires line.code.wave in d.waves && d.waves[line.code.wave].approval.Some?
    requires d.waves[line.code.wave].card.split == seen.split && seen.split.Keys <= d.variants.Keys
    requires seen.creatives == CreativesOf(d, seen.split)
    ensures var variant := assign(seen.split, line.code.contact);
            variant in seen.creatives && line.creative == seen.creatives[variant]
  {
    var variant :| IsApprovedFor(later, assign, line.code, variant, line.creative);
    SplitIsFrozen(d, line.code.wave, variant);
  }

  // A single call of execute_wave is one of these runs.

  function Script(id: Id, a: Attempt, n: nat, vendor: Code -> Receipt): seq<Step>
    requires n <= |a.audience|
  {
    if n == 0 then [] else
    Script(id, a, n - 1, vendor) + [Moved(PieceStep(id, vendor(Code(a.wave, a.audience[n - 1])), Commits))]
  }

  lemma {:induction false} RunSnoc(w: World, steps: seq<Step>, step: Step)
    ensures Run(w, steps + [step]) == Next(Run(w, steps), step)
  {
    assert (steps + [step])[..|steps|] == steps;
  }

  lemma {:induction false} TakesPiece(w: World, id: Id, answer: Receipt, outcome: Outcome)
    requires PieceReady(w, id)
    ensures Next(w, Moved(PieceStep(id, answer, outcome))) == TakePiece(w, id, answer, outcome)
  {
  }

  lemma {:induction false} CommitStep(w: World, id: Id, a: Attempt, k: nat, answer: Receipt)
    requires id in w.attempts && w.attempts[id] == a && Finished(w.progress, id) == k && k < |a.audience| && a.split != map[]
    ensures TakePiece(w, id, answer, Commits)
            == w.(plant := CommitFor(w.plant, a, a.audience[k], answer, w.now), progress := w.progress[id := k + 1])
  {
  }

  lemma {:induction false} SetTwice<K, V>(m: map<K, V>, k: K, v: V, w: V)
    ensures m[k := v][k := w] == m[k := w]
  {
  }

  lemma {:induction false} ScriptStep(w: World, before: World, id: Id, a: Attempt, n: nat, answer: Receipt)
    requires 0 < n <= |a.audience| && a.split != map[] && id in w.attempts && w.attempts[id] == a
    requires before == w.(plant := before.plant, progress := w.progress[id := n - 1])
    ensures var after := TakePiece(before, id, answer, Commits);
            && after.plant == CommitFor(before.plant, a, a.audience[n - 1], answer, w.now)
            && after == w.(plant := after.plant, progress := w.progress[id := n])
  {
    CommitStep(before, id, a, n - 1, answer);
    SetTwice(w.progress, id, n - 1, n);
  }

  lemma {:induction false} ScriptRuns(w: World, id: Id, a: Attempt, n: nat, vendor: Code -> Receipt)
    requires id in w.attempts && w.attempts[id] == a && id in w.progress && w.progress[id] == 0
    requires a.split != map[] && n <= |a.audience|
    ensures Run(w, Script(id, a, n, vendor))
            == w.(plant := AfterPieces(w.plant, a, n, vendor, w.now), progress := w.progress[id := n])
  {
    if n == 0 {
      assert w.progress[id := 0] == w.progress;
    } else {
      ScriptRuns(w, id, a, n - 1, vendor);
      var answer := vendor(Code(a.wave, a.audience[n - 1]));
      RunSnoc(w, Script(id, a, n - 1, vendor), Moved(PieceStep(id, answer, Commits)));
      TakesPiece(Run(w, Script(id, a, n - 1, vendor)), id, answer, Commits);
      ScriptStep(w, Run(w, Script(id, a, n - 1, vendor)), id, a, n, answer);
    }
  }

  function Last(id: Id, a: Attempt, ending: Ending, vendor: Code -> Receipt): seq<Step> {
    if ending == Clean || ending.at > |a.audience| then [Moved(Finish(id))]
    else if ending.at < |a.audience| && ending.printed
    then [Moved(PieceStep(id, vendor(Code(a.wave, a.audience[ending.at])), DiesPrinted))]
    else []
  }

  lemma {:induction false} LastFinish(w: World, id: Id, a: Attempt)
    requires id in w.attempts && w.attempts[id] == a && Finished(w.progress, id) == |a.audience| && a.wave in w.plant.desk.waves
    ensures Next(w, Moved(Finish(id))).plant == w.plant.(desk := WithStatus(w.plant.desk, a.wave, Sent))
  {
  }

  lemma {:induction false} LastPrint(w: World, id: Id, a: Attempt, k: nat, answer: Receipt)
    requires id in w.attempts && w.attempts[id] == a && Finished(w.progress, id) == k && k < |a.audience| && a.split != map[]
    ensures TakePiece(w, id, answer, DiesPrinted).plant
            == w.plant.(prints := PrintsAfter(w.plant, a, a.audience[k], VariantFor(w.plant, a, a.audience[k]), answer))
  {
  }

  lemma {:induction false} LastStep(w: World, id: Id, a: Attempt, ending: Ending, vendor: Code -> Receipt)
    requires id in w.attempts && w.attempts[id] == a && Finished(w.progress, id) == PiecesBeforeEnd(a, ending)
    requires a.split != map[] && a.wave in w.plant.desk.waves
    ensures Run(w, Last(id, a, ending, vendor)).plant == AfterEnding(w.plant, a, ending, vendor)
  {
    if ending == Clean || ending.at > |a.audience| {
      RunSnoc(w, [], Moved(Finish(id)));
      LastFinish(w, id, a);
    } else if ending.at < |a.audience| && ending.printed {
      var answer := vendor(Code(a.wave, a.audience[ending.at]));
      RunSnoc(w, [], Moved(PieceStep(id, answer, DiesPrinted)));
      TakesPiece(w, id, answer, DiesPrinted);
      LastPrint(w, id, a, ending.at, answer);
    }
  }

  lemma {:induction false} FreeId(known: set<Id>) returns (id: Id)
    ensures id !in known
  {
    var all := Ascending(known);
    id := if all == [] then 0 else all[|all| - 1] + 1;
    assert forall k :: k in known ==> k in all;
  }

  lemma {:induction false} FirstStep(w: World, id: Id, wave: Id, audience: seq<Id>, a: Attempt)
    requires Begin(w.plant.desk, wave, audience) == Begun(a) && id !in w.attempts
    ensures Next(w, Moved(Start(id, wave, audience))) == Started(w, id, a)
  {
  }

  /** The middle and the end of a call, once it has begun. */
  lemma {:induction false} BegunRuns(w: World, id: Id, a: Attempt, ending: Ending, vendor: Code -> Receipt) returns (steps: seq<Step>)
    requires a.wave in w.plant.desk.waves && a.split != map[]
    ensures Run(Started(w, id, a), steps).plant == ExecuteFrom(w.plant, a, ending, vendor, w.now)
  {
    var begun := Started(w, id, a);
    var n := PiecesBeforeEnd(a, ending);
    ScriptRuns(begun, id, a, n, vendor);
    PiecesKeepWaves(begun.plant, a, n, vendor, w.now);
    LastStep(Run(begun, Script(id, a, n, vendor)), id, a, ending, vendor);
    RunConcat(begun, Script(id, a, n, vendor), Last(id, a, ending, vendor));
    steps := Script(id, a, n, vendor) + Last(id, a, ending, vendor);
  }

  /** execute_wave, to whatever end, leaves the tables and the vendor exactly as some run of the steps
      does; so everything above holds of every sequence of its calls. */
  lemma {:induction false} ExecuteIsARun(w: World, wave: Id, audience: seq<Id>, ending: Ending, vendor: Code -> Receipt) returns (steps: seq<Step>)
    requires Inv(w)
    ensures Run(w, steps).plant == Execute(w.plant, wave, audience, ending, vendor, w.now)
  {
    steps := [];
    if Begin(w.plant.desk, wave, audience).Begun? {
      BegunHasVariants(w.plant.desk, wave, audience);
      var a := Begin(w.plant.desk, wave, audience).attempt;
      var id := FreeId(w.attempts.Keys);
      var rest := BegunRuns(w, id, a, ending, vendor);
      FirstStep(w, id, wave, audience, a);
      RunSnoc(w, [], Moved(Start(id, wave, audience)));
      RunConcat(w, [Moved(Start(id, wave, audience))], rest);
      steps := [Moved(Start(id, wave, audience))] + rest;
    }
  }
}
