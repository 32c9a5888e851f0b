/** The wave lifecycle with each verb's reads apart from its write: plain selects, then a blind update, and
    nothing locked in between (service/waves.py, service/execution.py). What an approval promises can then
    be overwritten; here is exactly when. */
module Overwrites {
  import opened Types
  import opened Audience
  import opened Waves
  import opened Drop
  import Custody

  /** A verb whose reads have been made: an edit, an approval or a cancellation; or the start of a drop,
      which remembers whether it found the wave executing already. */
  datatype Pending = Changing(verb: Verb) | Starting(id: Id, resumes: bool)

  datatype World = World(desk: Desk, now: Time, pending: map<Id, Pending>)

  datatype Step =
    | Tick(seconds: nat)
    | LeadsChange(leads: Leads)
    | Insert(verb: Verb)
    | Read(token: Id, verb: Verb)
    | ReadStart(token: Id, wave: Id, audience: seq<Id>)
    | Write(token: Id)
    | Finish(wave: Id)

  predicate IsInsert(verb: Verb) {
    verb.CreateVariant? || verb.DraftWave?
  }

  /** What the reads of an updating verb refuse; a taken name and a missing variant show at the write. */
  function ReadRefusal(d: Desk, now: Time, verb: Verb): Option<Refused> {
    match verb
    case UpdateVariant(id, v) =>
      if Custody.IsBlank(v.hypothesis) then Some(EmptyHypothesis) else if IsFrozen(d, id) then Some(Frozen) else None
    case UpdateWave(id, card) =>
      if RuleRefusal(card.rule).Some? then RuleRefusal(card.rule)
      else if id !in d.waves then Some(NoWave)
      else if d.waves[id].status != Draft then Some(NotDraft) else None
    case _ => Refusal(d, now, verb)
  }

  /** The name of a cancelled wave is free again: it cannot come back once another has taken it. */
  predicate ComesBackTaken(d: Desk, id: Id)
    requires id in d.waves
  {
    d.waves[id].status == Cancelled && WaveNameTaken(d, id, d.waves[id].card.name)
  }

  /** Whether the update goes through: the row is there, and the unique names allow it. */
  predicate Lands(d: Desk, p: Pending) {
    match p
    case Changing(UpdateVariant(id, v)) => id in d.variants && !VariantNameTaken(d, id, v.name)
    case Changing(UpdateWave(id, card)) => id in d.waves && !(d.waves[id].status != Cancelled && WaveNameTaken(d, id, card.name))
    case Changing(ApproveWave(id, _, _, _)) => id in d.waves && !ComesBackTaken(d, id)
    case Changing(CancelWave(id)) => id in d.waves
    case Changing(_) => false
    case Starting(id, resumes) => !resumes && id in d.waves && !ComesBackTaken(d, id)
  }

  function Written(d: Desk, now: Time, p: Pending): Desk
    requires Lands(d, p)
  {
    match p
    case Changing(verb) => Change(d, now, verb)
    case Starting(id, _) => WithStatus(d, id, Executing)
  }

  predicate ReadsWell(w: World, token: Id, verb: Verb) {
    && token !in w.pending && !IsInsert(verb) && ReadRefusal(w.desk, w.now, verb).None?
    && (verb.CancelWave? ==> w.desk.waves[verb.id].status != Cancelled)
  }

  predicate StartsWell(w: World, token: Id, wave: Id, audience: seq<Id>) {
    token !in w.pending && Begin(w.desk, wave, audience).Begun?
  }

  predicate IsWriting(w: World, step: Step) {
    step.Write? && step.token in w.pending && Lands(w.desk, w.pending[step.token])
  }

  function Next(w: World, step: Step): World {
    match step
    case Tick(seconds) => w.(now := w.now + seconds)
    case LeadsChange(leads) => w.(desk := w.desk.(leads := leads))
    case Insert(verb) => if IsInsert(verb) then w.(desk := Apply(w.desk, w.now, verb)) else w
    case Read(token, verb) => if ReadsWell(w, token, verb) then w.(pending := w.pending[token := Changing(verb)]) else w
    case ReadStart(token, wave, audience) =>
      if StartsWell(w, token, wave, audience)
      then w.(pending := w.pending[token := Starting(wave, w.desk.waves[wave].status == Executing)]) else w
    case Write(token) =>
      var left := w.(pending := w.pending - {token});
      if IsWriting(w, step) then left.(desk := Written(w.desk, w.now, w.pending[token])) else left
    case Finish(wave) =>
      if wave in w.desk.waves && w.desk.waves[wave].status == Executing
      then w.(desk := WithStatus(w.desk, wave, Sent)) else w
  }

  function Run(w: World, steps: seq<Step>): World {
    if steps == [] then w else Next(Run(w, steps[..|steps| - 1]), steps[|steps| - 1])
  }

  function Genesis(now: Time): World {
    World(Desk(map[], map[], map[], map[], []), now, map[])
  }

  // What a write must keep.

  /** A drop that has begun goes on, and a cancelled wave stays cancelled. */
  ghost predicate GoesOn(d: Desk, later: Desk) {
    forall id :: id in d.waves && id in later.waves ==>
      && (d.waves[id].status in {Executing, Sent} ==> later.waves[id].status in {d.waves[id].status, Sent})
      && (d.waves[id].status == Cancelled ==> later.waves[id].status == Cancelled)
  }

  /** An approval given with a preview's fingerprint signs the split and the creatives of that preview. */
  ghost predicate SignsWhatWasSeen(p: Pending, later: Desk) {
    match p
    case Changing(ApproveWave(id, _, Some(seen), _)) =>
      id in later.waves && later.waves[id].card.split == seen.split && CreativesOf(later, seen.split) == seen.creatives
    case _ => true
  }

  ghost predicate Keeps(w: World, step: Step) {
    var later := Next(w, step).desk;
    && DeskInv(later) && Honours(w.desk, later) && GoesOn(w.desk, later)
    && (IsWriting(w, step) ==> SignsWhatWasSeen(w.pending[step.token], later))
  }

  /** Exactly the writes that break it: an edit of what has been approved since its read; a second
      approval, one of a wave that has moved on, or one of a card that is not the one read; a cancellation
      of a drop that has begun since; the start of a wave that has been cancelled or sent since. */
  ghost predicate Slips(w: World, step: Step) {
    IsWriting(w, step) && IsStale(w.desk, w.now, w.pending[step.token])
  }

  ghost predicate IsStale(d: Desk, now: Time, p: Pending)
    requires Lands(d, p)
  {
    match p
    case Changing(UpdateVariant(id, v)) => IsFrozen(d, id) && d.variants[id] != v
    case Changing(UpdateWave(id, card)) => d.waves[id].approval.Some? && d.waves[id].card != card
    case Changing(ApproveWave(id, approver, seen, audience)) =>
      || (d.waves[id].approval.Some? && d.waves[id].approval.value != Approval(approver, now, |audience|))
      || d.waves[id].status in {Executing, Sent, Cancelled}
      || d.waves[id].card.split == map[] || !(d.waves[id].card.split.Keys <= d.variants.Keys)
      || (seen.Some? && !(d.waves[id].card.split == seen.value.split && CreativesOf(d, seen.value.split) == seen.value.creatives))
    case Changing(CancelWave(id)) => d.waves[id].status in {Executing, Sent}
    case Changing(_) => false
    case Starting(id, _) => d.waves[id].status in {Sent, Cancelled}
  }

  // The invariant.

  /** What a read has made sure of for good. */
  ghost predicate PendingSound(d: Desk, p: Pending) {
    match p
    case Changing(UpdateWave(id, card)) => id in d.waves && IsValidRule(card.rule)
    case Changing(ApproveWave(id, _, _, audience)) => id in d.waves && audience != []
    case Changing(CancelWave(id)) => id in d.waves
    case Changing(_) => true
    case Starting(id, _) => id in d.waves && d.waves[id].approval.Some?
  }

  ghost predicate Inv(w: World) {
    DeskInv(w.desk) && forall t :: t in w.pending ==> PendingSound(w.desk, w.pending[t])
  }

  lemma {:induction false} PendingStays(d: Desk, later: Desk, p: Pending)
    requires PendingSound(d, p) && Honours(d, later)
    ensures PendingSound(later, p)
  {
  }

  lemma {:induction false} ReadIsSound(w: World, step: Step)
    requires DeskInv(w.desk)
    requires (step.Read? && ReadsWell(w, step.token, step.verb)) || (step.ReadStart? && StartsWell(w, step.token, step.wave, step.audience))
    ensures PendingSound(w.desk, Next(w, step).pending[step.token])
  {
    if step.ReadStart? {
      assert WaveSound(w.desk, w.desk.waves[step.wave]);
    }
  }

  // The steps.

  lemma {:induction false} VariantWrite(d: Desk, id: Id, v: Variant)
    requires DeskInv(d) && id in d.variants
    ensures var later := d.(variants := d.variants[id := v]);
            DeskInv(later) && GoesOn(d, later) && (Honours(d, later) <==> !(IsFrozen(d, id) && d.variants[id] != v))
  {
    var later := d.(variants := d.variants[id := v]);
    forall other | other in later.waves ensures WaveSound(later, later.waves[other]) {
      assert WaveSound(d, d.waves[other]);
    }
    if IsFrozen(d, id) && d.variants[id] != v {
      assert id in d.variants && later.variants[id] != d.variants[id];
    }
  }

  /** A wave row is replaced: the promise is kept exactly when that one row keeps it. */
  lemma {:induction false} WaveWrite(d: Desk, id: Id, wave: Wave)
    requires DeskInv(d) && id in d.waves
    ensures var later := d.(waves := d.waves[id := wave]);
            && (DeskInv(later) <==> WaveSound(d, wave))
            && (Honours(d, later) <==>
                  (d.waves[id].approval.Some? ==> wave.card == d.waves[id].card && wave.approval == d.waves[id].approval))
            && (GoesOn(d, later) <==> RowGoesOn(d.waves[id], wave))
  {
    var later := d.(waves := d.waves[id := wave]);
    forall other | other in later.waves && other != id ensures WaveSound(later, later.waves[other]) {
      assert WaveSound(d, d.waves[other]);
    }
    assert WaveSound(later, wave) <==> WaveSound(d, wave);
    assert id in later.waves && later.waves[id] == wave;
  }

  predicate RowGoesOn(was: Wave, wave: Wave) {
    && (was.status in {Executing, Sent} ==> wave.status in {was.status, Sent})
    && (was.status == Cancelled ==> wave.status == Cancelled)
  }

  lemma {:induction false} WriteKeepsWhen(w: World, step: Step)
    requires Inv(w) && IsWriting(w, step)
    ensures Keeps(w, step) <==> !Slips(w, step)
  {
    var d, p := w.desk, w.pending[step.token];
    assert PendingSound(d, p);
    assert Next(w, step).desk == Written(d, w.now, p);
    match p
    case Changing(UpdateVariant(id, v)) => VariantWrite(d, id, v);
    case Changing(UpdateWave(id, card)) => EditKeepsWhen(d, w.now, p);
    case Changing(ApproveWave(id, approver, seen, audience)) => ApprovalKeepsWhen(d, w.now, p);
    case Changing(CancelWave(id)) =>
      assert WaveSound(d, d.waves[id]);
      WaveWrite(d, id, d.waves[id].(status := Cancelled));
    case Starting(id, _) =>
      assert WaveSound(d, d.waves[id]);
      WaveWrite(d, id, d.waves[id].(status := Executing));
  }

  lemma {:induction false} EditKeepsWhen(d: Desk, now: Time, p: Pending)
    requires DeskInv(d) && PendingSound(d, p) && Lands(d, p) && p.Changing? && p.verb.UpdateWave?
    ensures var later := Written(d, now, p);
            DeskInv(later) && Honours(d, later) && GoesOn(d, later) <==> !IsStale(d, now, p)
  {
    var id, card := p.verb.id, p.verb.card;
    assert WaveSound(d, d.waves[id]);
    WaveWrite(d, id, d.waves[id].(card := card));
  }

  lemma {:induction false} ApprovalKeepsWhen(d: Desk, now: Time, p: Pending)
    requires DeskInv(d) && PendingSound(d, p) && Lands(d, p) && p.Changing? && p.verb.ApproveWave?
    ensures var later := Written(d, now, p);
            DeskInv(later) && Honours(d, later) && GoesOn(d, later) && SignsWhatWasSeen(p, later) <==> !IsStale(d, now, p)
  {
    var id := p.verb.id;
    var approval := Approval(p.verb.approver, now, |p.verb.audience|);
    assert WaveSound(d, d.waves[id]);
    WaveWrite(d, id, d.waves[id].(status := Approved, approval := Some(approval)));
    assert Written(d, now, p) == d.(waves := d.waves[id := d.waves[id].(status := Approved, approval := Some(approval))]);
  }

  /** Whatever is pending, a step keeps every promise if and only if it is not one of those writes. */
  lemma {:induction false} StepKeepsWhen(w: World, step: Step)
    requires Inv(w)
    ensures Keeps(w, step) <==> !Slips(w, step)
    ensures Keeps(w, step) ==> Inv(Next(w, step))
  {
    if IsWriting(w, step) {
      WriteKeepsWhen(w, step);
    } else {
      OthersKeep(w, step);
    }
    if Keeps(w, step) {
      forall t | t in Next(w, step).pending ensures PendingSound(Next(w, step).desk, Next(w, step).pending[t]) {
        if t in w.pending {
          PendingStays(w.desk, Next(w, step).desk, w.pending[t]);
        } else {
          ReadIsSound(w, step);
        }
      }
    }
  }

  lemma {:induction false} OthersKeep(w: World, step: Step)
    requires Inv(w) && !IsWriting(w, step)
    ensures Keeps(w, step)
  {
    if step.Insert? && IsInsert(step.verb) {
      InsertKeeps(w.desk, w.now, step.verb);
    } else if step.Finish? && step.wave in w.desk.waves && w.desk.waves[step.wave].status == Executing {
      assert WaveSound(w.desk, w.desk.waves[step.wave]);
      WaveWrite(w.desk, step.wave, w.desk.waves[step.wave].(status := Sent));
    } else if step.LeadsChange? {
      LeadsPromiseNothing(w.desk, step.leads);
    } else {
      assert Next(w, step).desk == w.desk;
    }
  }

  lemma {:induction false} InsertKeeps(d: Desk, now: Time, verb: Verb)
    requires DeskInv(d) && IsInsert(verb)
    ensures var later := Apply(d, now, verb); DeskInv(later) && Honours(d, later) && GoesOn(d, later)
  {
    VerbHonours(d, now, verb);
  }

  lemma {:induction false} LeadsPromiseNothing(d: Desk, leads: Leads)
    requires DeskInv(d)
    ensures var later := d.(leads := leads); DeskInv(later) && Honours(d, later) && GoesOn(d, later)
  {
    var later := d.(leads := leads);
    forall id | id in later.waves ensures WaveSound(later, later.waves[id]) {
      assert WaveSound(d, d.waves[id]);
    }
  }

  // Runs.

  function At(now: Time, steps: seq<Step>, i: nat): World
    requires i <= |steps|
  {
    Run(Genesis(now), steps[..i])
  }

  ghost predicate AllKeep(now: Time, steps: seq<Step>) {
    forall i :: 0 <= i < |steps| ==> Keeps(At(now, steps, i), steps[i])
  }

  ghost predicate NoneSlips(now: Time, steps: seq<Step>) {
    forall i :: 0 <= i < |steps| ==> !Slips(At(now, steps, i), steps[i])
  }

  lemma {:induction false} FrontOfRun(now: Time, steps: seq<Step>)
    requires steps != []
    ensures var front, last := steps[..|steps| - 1], steps[|steps| - 1];
            && (AllKeep(now, steps) <==> AllKeep(now, front) && Keeps(Run(Genesis(now), front), last))
            && (NoneSlips(now, steps) <==> NoneSlips(now, front) && !Slips(Run(Genesis(now), front), last))
  {
    var front := steps[..|steps| - 1];
    assert forall i :: 0 <= i <= |front| ==> front[..i] == steps[..i];
    assert At(now, steps, |front|) == Run(Genesis(now), front);
    assert forall i :: 0 <= i < |front| ==> At(now, front, i) == At(now, steps, i) && front[i] == steps[i];
  }

  /** Over every run, however reads and writes fall: every step keeps what approvals promised, drops go on,
      cancelled waves stay cancelled and approvals sign what was seen, if and only if no write of the run
      is stale. */
  lemma {:induction false} PromisesKeptWhen(now: Time, steps: seq<Step>)
    ensures AllKeep(now, steps) <==> NoneSlips(now, steps)
    ensures AllKeep(now, steps) ==> Inv(Run(Genesis(now), steps))
  {
    if steps != [] {
      var front := steps[..|steps| - 1];
      PromisesKeptWhen(now, front);
      FrontOfRun(now, steps);
      if AllKeep(now, front) {
        StepKeepsWhen(Run(Genesis(now), front), steps[|steps| - 1]);
      }
    }
  }

  /** With nothing in between, a read and its write are the verb taken as one transaction. */
  lemma {:induction false} ReadThenWrite(w: World, token: Id, verb: Verb)
    requires token !in w.pending && !IsInsert(verb)
    ensures Next(Next(w, Read(token, verb)), Write(token)).desk == Apply(w.desk, w.now, verb)
  {
    var read := Next(w, Read(token, verb));
    if ReadsWell(w, token, verb) {
      assert read.desk == w.desk && read.pending[token] == Changing(verb);
    }
    match verb
    case CancelWave(id) =>
      if id in w.desk.waves && w.desk.waves[id].status == Cancelled {
        assert w.desk.waves[id := w.desk.waves[id].(status := Cancelled)] == w.desk.waves;
      }
    case _ =>
  }

  // Three runs that the database allows: one founder's seed, one variant, one wave.

  const SEED: Id := 3
  const LEADS: Leads := map[SEED := Addressee(None, None, None, None, None, {}, Prospect, false, false, true, None, 0)]
  const VARIANT := Variant("plain", "a plain card is read", "{}")
  const CARD := Card("first", 1, AudienceRule(), map[1 := 1.0], Some(10))
  const EDITED := CARD.(drop := 2)
  const TABLE: Desk := Desk(LEADS, map[1 := VARIANT], map[5 := Wave(CARD, Draft, None)], map[], [])
  const SEEN: Fingerprint := FingerprintOf(TABLE, CARD, [SEED])
  const APPROVE := Verb.ApproveWave(5, "founder", Some(SEEN), [SEED])
  const SIGNED := Wave(CARD, Approved, Some(Approval("founder", 0, 1)))

  function Drafting(): seq<Step> {
    [LeadsChange(LEADS), Insert(CreateVariant(1, VARIANT)), Insert(DraftWave(5, CARD))]
  }

  lemma {:induction false} Drafts()
    ensures Run(Genesis(0), Drafting()) == World(TABLE, 0, map[])
  {
    var first, second, third := LeadsChange(LEADS), Insert(CreateVariant(1, VARIANT)), Insert(DraftWave(5, CARD));
    assert Drafting() == [] + [first] + [second] + [third];
    RunSnoc(Genesis(0), [], first);
    RunSnoc(Genesis(0), [] + [first], second);
    RunSnoc(Genesis(0), [] + [first] + [second], third);
    assert VARIANT.hypothesis[0] == 'a';
    assert map[][1 := VARIANT] == map[1 := VARIANT];
    var w2 := Next(Next(Genesis(0), first), second);
    assert w2.desk == Desk(LEADS, map[1 := VARIANT], map[], map[], []);
    assert IsValidRule(CARD.rule);
    assert map[][5 := Wave(CARD, Draft, None)] == map[5 := Wave(CARD, Draft, None)];
    assert Next(w2, third).desk == TABLE;
  }

  /** The seed is what the wave's rule resolves to, whatever its status, and the fingerprint is the preview's. */
  lemma {:induction false} SeedIsTheAudience(d: Desk)
    requires d.leads == LEADS && d.pieces == map[] && 5 in d.waves && d.waves[5].card == CARD
    ensures AudienceOf(d, 5) == [SEED] && (d.variants == TABLE.variants ==> Preview(d, 5) == Some(SEEN))
  {
    assert Population(LEADS, {}, CARD.rule) == {};
    assert Candidates(LEADS, {}, CARD.rule) == [];
    assert Trimmed(LEADS, []).ids == [];
    var seeds := Seeds(LEADS);
    assert (set id | id in LEADS && LEADS[id].isSeed) == {SEED};
    assert seeds == [SEED] by {
      assert |seeds| == 1 && seeds[0] in seeds;
    }
    assert d.pieces.Keys == {};
  }

  lemma {:induction false} ApprovalReads(w: World)
    requires w.desk == TABLE && w.now == 0 && 1 !in w.pending
    ensures Next(w, Read(1, APPROVE)) == w.(pending := w.pending[1 := Changing(APPROVE)])
  {
    assert 1 in CARD.split && CARD.split != map[] && CARD.split.Keys == {1} && w.desk.variants.Keys == {1};
    assert DateOf(0) == 0 && IsValidRule(CARD.rule);
    assert DraftRefusal(w.desk, 0, 5, [SEED]).None?;
    assert ReadRefusal(w.desk, 0, APPROVE) == ApprovalRefusal(w.desk, 0, 5, Some(SEEN), [SEED]);
  }

  lemma {:induction false} ApprovalWrites(w: World)
    requires w.desk == TABLE && w.now == 0 && 1 in w.pending && w.pending[1] == Changing(APPROVE)
    ensures Next(w, Write(1)) == w.(desk := TABLE.(waves := map[5 := SIGNED]), pending := w.pending - {1})
  {
    assert TABLE.waves[5 := SIGNED] == map[5 := SIGNED];
  }

  lemma {:induction false} RunSnoc(w: World, steps: seq<Step>, step: Step)
    ensures Run(w, steps + [step]) == Next(Run(w, steps), step)
  {
    assert (steps + [step])[..|steps|] == steps;
  }

  /** The approval is one of what the wave resolves to, with the fingerprint of its preview. */
  lemma {:induction false} ApprovalIsGenuine()
    ensures var read := Run(Genesis(0), Drafting()).desk;
            APPROVE == Verb.ApproveWave(5, "founder", Preview(read, 5), AudienceOf(read, 5))
  {
    Drafts();
    SeedIsTheAudience(TABLE);
  }

  const EDIT: Verb := UpdateWave(5, EDITED)

  function EditPending(): seq<Step> {
    Drafting() + [Read(0, EDIT)] + [Read(1, APPROVE)] + [Write(1)]
  }

  lemma {:induction false} EditReads()
    ensures Next(World(TABLE, 0, map[]), Read(0, EDIT)) == World(TABLE, 0, map[0 := Changing(EDIT)])
  {
  }

  lemma {:induction false} EditIsPending()
    ensures Run(Genesis(0), EditPending()) == World(TABLE.(waves := map[5 := SIGNED]), 0, map[0 := Changing(EDIT)])
  {
    Drafts();
    EditReads();
    var w1 := World(TABLE, 0, map[0 := Changing(EDIT)]);
    RunSnoc(Genesis(0), Drafting(), Read(0, EDIT));
    RunSnoc(Genesis(0), Drafting() + [Read(0, EDIT)], Read(1, APPROVE));
    RunSnoc(Genesis(0), Drafting() + [Read(0, EDIT)] + [Read(1, APPROVE)], Write(1));
    ApprovalReads(w1);
    ApprovalWrites(Next(w1, Read(1, APPROVE)));
    assert map[0 := Changing(EDIT)][1 := Changing(APPROVE)] - {1} == map[0 := Changing(EDIT)];
  }

  /** An edit that read the draft before the approval is written after it: what fires is a card that
      nobody saw, under an approval that signs another. */
  lemma {:induction false} EditOverwritesApproval()
    ensures APPROVE == Verb.ApproveWave(5, "founder", Preview(Run(Genesis(0), Drafting()).desk, 5),
                                        AudienceOf(Run(Genesis(0), Drafting()).desk, 5))
    ensures Run(Genesis(0), EditPending()).desk.waves == map[5 := SIGNED] && Slips(Run(Genesis(0), EditPending()), Write(0))
    ensures Run(Genesis(0), EditPending() + [Write(0)]).desk.waves == map[5 := SIGNED.(card := EDITED)]
  {
    ApprovalIsGenuine();
    EditIsPending();
    RunSnoc(Genesis(0), EditPending(), Write(0));
    EditLands(Run(Genesis(0), EditPending()), EDIT);
  }

  lemma {:induction false} EditLands(w: World, edit: Verb)
    requires w.desk == TABLE.(waves := map[5 := SIGNED]) && edit == Verb.UpdateWave(5, EDITED)
    requires 0 in w.pending && w.pending[0] == Changing(edit)
    ensures Slips(w, Write(0)) && Next(w, Write(0)).desk.waves == map[5 := SIGNED.(card := EDITED)]
  {
    assert w.desk.waves[5 := SIGNED.(card := EDITED)] == map[5 := SIGNED.(card := EDITED)];
    assert EDITED != CARD;
  }

  /** The wave as approved, with nothing pending. */
  const READY := World(TABLE.(waves := map[5 := SIGNED]), 0, map[])

  function Approving(): seq<Step> {
    Drafting() + [Read(1, APPROVE)] + [Write(1)]
  }

  lemma {:induction false} Approves()
    ensures Run(Genesis(0), Approving()) == READY
  {
    Drafts();
    RunSnoc(Genesis(0), Drafting(), Read(1, APPROVE));
    RunSnoc(Genesis(0), Drafting() + [Read(1, APPROVE)], Write(1));
    ApprovalReads(World(TABLE, 0, map[]));
    ApprovalWrites(World(TABLE, 0, map[1 := Changing(APPROVE)]));
  }

  const CANCEL: Verb := CancelWave(5)

  lemma {:induction false} StartReads(w: World)
    requires w.desk == READY.desk && 2 !in w.pending
    ensures Next(w, ReadStart(2, 5, [SEED])) == w.(pending := w.pending[2 := Starting(5, false)])
  {
    assert Begin(w.desk, 5, [SEED]).Begun?;
  }

  /** A drop that read the wave as approved starts after the cancellation: a cancelled wave is mailed. */
  lemma {:induction false} CancelledWaveStarts()
    ensures var steps := Approving() + [ReadStart(2, 5, [SEED])] + [Read(4, CANCEL)] + [Write(4)];
            && Run(Genesis(0), steps).desk.waves == map[5 := SIGNED.(status := Cancelled)]
            && Slips(Run(Genesis(0), steps), Write(2))
            && Run(Genesis(0), steps + [Write(2)]).desk.waves == map[5 := SIGNED.(status := Executing)]
    ensures AudienceOf(Run(Genesis(0), Approving()).desk, 5) == [SEED]
  {
    SeedIsTheAudience(READY.desk);
    var s0 := Approving();
    Approves();
    RunSnoc(Genesis(0), s0, ReadStart(2, 5, [SEED]));
    StartReads(READY);
    RunSnoc(Genesis(0), s0 + [ReadStart(2, 5, [SEED])], Read(4, CANCEL));
    RunSnoc(Genesis(0), s0 + [ReadStart(2, 5, [SEED])] + [Read(4, CANCEL)], Write(4));
    RunSnoc(Genesis(0), s0 + [ReadStart(2, 5, [SEED])] + [Read(4, CANCEL)] + [Write(4)], Write(2));
    CancelsThenStarts(READY.(pending := map[2 := Starting(5, false)]));
  }

  lemma {:induction false} CancelsThenStarts(w: World)
    requires w == READY.(pending := map[2 := Starting(5, false)])
    ensures var cancelled := Next(Next(w, Read(4, CANCEL)), Write(4));
            && cancelled.desk.waves == map[5 := SIGNED.(status := Cancelled)] && Slips(cancelled, Write(2))
            && Next(cancelled, Write(2)).desk.waves == map[5 := SIGNED.(status := Executing)]
  {
    var cancelled := Next(Next(w, Read(4, CANCEL)), Write(4));
    assert w.desk.waves[5 := SIGNED.(status := Cancelled)] == map[5 := SIGNED.(status := Cancelled)];
    assert cancelled.desk.waves[5 := SIGNED.(status := Executing)] == map[5 := SIGNED.(status := Executing)];
  }

  /** And the other way round: a cancellation that read the wave as approved is written mid-drop. */
  lemma {:induction false} RunningWaveIsCancelled()
    ensures var steps := Approving() + [Read(4, CANCEL)] + [ReadStart(2, 5, [SEED])] + [Write(2)];
            && Run(Genesis(0), steps).desk.waves == map[5 := SIGNED.(status := Executing)]
            && Slips(Run(Genesis(0), steps), Write(4))
            && Run(Genesis(0), steps + [Write(4)]).desk.waves == map[5 := SIGNED.(status := Cancelled)]
  {
    var s0 := Approving();
    Approves();
    RunSnoc(Genesis(0), s0, Read(4, CANCEL));
    var w1 := Next(READY, Read(4, CANCEL));
    assert w1 == READY.(pending := map[4 := Changing(CANCEL)]);
    RunSnoc(Genesis(0), s0 + [Read(4, CANCEL)], ReadStart(2, 5, [SEED]));
    StartReads(w1);
    RunSnoc(Genesis(0), s0 + [Read(4, CANCEL)] + [ReadStart(2, 5, [SEED])], Write(2));
    RunSnoc(Genesis(0), s0 + [Read(4, CANCEL)] + [ReadStart(2, 5, [SEED])] + [Write(2)], Write(4));
    StartsThenCancels(Next(w1, ReadStart(2, 5, [SEED])));
  }

  lemma {:induction false} StartsThenCancels(w: World)
    requires w == READY.(pending := map[4 := Changing(CANCEL)][2 := Starting(5, false)])
    ensures var started := Next(w, Write(2));
            && started.desk.waves == map[5 := SIGNED.(status := Executing)] && Slips(started, Write(4))
            && Next(started, Write(4)).desk.waves == map[5 := SIGNED.(status := Cancelled)]
  {
    var started := Next(w, Write(2));
    assert w.desk.waves[5 := SIGNED.(status := Executing)] == map[5 := SIGNED.(status := Executing)];
    assert started.desk.waves[5 := SIGNED.(status := Cancelled)] == map[5 := SIGNED.(status := Cancelled)];
  }
}
