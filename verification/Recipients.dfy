/** Who is printed to: every piece goes back to the audience of a call, and through it to the rule the
    wave was approved with (service/waves.py, service/execution.py). */
module Recipients {
  import opened Types
  import opened Audience
  import opened Split
  import opened Waves
  import opened Drop
  import opened DropRuns

  /** The service's own assignment is one that the theorems of the drop cover. */
  lemma {:induction false} AssignedIsAssignment()
    ensures IsAssignment(Assigned)
  {
  }

  /** The world before the i-th step of a run. */
  function WorldAt(now: Time, assign: Assigner, steps: seq<Step>, i: nat): World
    requires i <= |steps|
  {
    Run(Genesis(now, assign), steps[..i])
  }

  function DeskAt(now: Time, assign: Assigner, steps: seq<Step>, i: nat): Desk
    requires i <= |steps|
  {
    WorldAt(now, assign, steps, i).plant.desk
  }

  /** The call that the i-th step began is still the one under its id when the k-th step comes. */
  ghost predicate IsCall(now: Time, assign: Assigner, steps: seq<Step>, i: nat, k: nat, id: Id, a: Attempt) {
    && i < k <= |steps| && steps[i] == Moved(Start(id, a.wave, a.audience))
    && id !in WorldAt(now, assign, steps, i).attempts
    && Begin(DeskAt(now, assign, steps, i), a.wave, a.audience) == Begun(a)
    && forall m :: i < m <= k ==> IsLive(WorldAt(now, assign, steps, m), id, a)
  }

  ghost predicate IsLive(w: World, id: Id, a: Attempt) {
    id in w.attempts && w.attempts[id] == a
  }

  /** The k-th step, a piece of that call, printed the line, for the contact whose turn it was. */
  ghost predicate IsPrintedBy(now: Time, assign: Assigner, steps: seq<Step>, i: nat, k: nat, id: Id, a: Attempt, line: Print) {
    && k < |steps| && IsCall(now, assign, steps, i, k, id, a)
    && steps[k].Moved? && steps[k].move.PieceStep? && steps[k].move.attempt == id
    && IsNewPrint(WorldAt(now, assign, steps, k), id, line)
    && line in WorldAt(now, assign, steps, k + 1).plant.prints
  }

  predicate IsNewPrint(w: World, id: Id, line: Print) {
    && line !in w.plant.prints && PieceReady(w, id)
    && line.code == Code(w.attempts[id].wave, w.attempts[id].audience[DropRuns.Finished(w.progress, id)])
  }

  ghost predicate HasCall(now: Time, assign: Assigner, steps: seq<Step>, id: Id, a: Attempt) {
    exists i: nat :: IsCall(now, assign, steps, i, |steps|, id, a)
  }

  ghost predicate HasPrinter(now: Time, assign: Assigner, steps: seq<Step>, line: Print) {
    exists i: nat, k: nat, id, a :: IsPrintedBy(now, assign, steps, i, k, id, a, line)
  }

  /** Each live attempt is the call of some step, and each line was printed by such a call. */
  ghost predicate AllTraced(now: Time, assign: Assigner, steps: seq<Step>, w: World) {
    && (forall id :: id in w.attempts ==> HasCall(now, assign, steps, id, w.attempts[id]))
    && (forall line :: line in w.plant.prints ==> HasPrinter(now, assign, steps, line))
  }

  lemma {:induction false} WorldsStay(now: Time, assign: Assigner, steps: seq<Step>, step: Step)
    ensures forall i :: 0 <= i <= |steps| ==> WorldAt(now, assign, steps + [step], i) == WorldAt(now, assign, steps, i)
    ensures WorldAt(now, assign, steps, |steps|) == Run(Genesis(now, assign), steps)
    ensures WorldAt(now, assign, steps + [step], |steps| + 1) == Next(Run(Genesis(now, assign), steps), step)
  {
    var more := steps + [step];
    assert forall i :: 0 <= i <= |steps| ==> more[..i] == steps[..i];
    assert steps[..|steps|] == steps && more[..|steps| + 1] == more && more[..|more| - 1] == steps;
  }

  lemma {:induction false} LastWorld(now: Time, assign: Assigner, steps: seq<Step>, step: Step)
    ensures WorldAt(now, assign, steps + [step], |steps| + 1) == Next(Run(Genesis(now, assign), steps), step)
  {
    WorldsStay(now, assign, steps, step);
  }

  lemma {:induction false} CallStays(now: Time, assign: Assigner, steps: seq<Step>, step: Step, i: nat, k: nat, id: Id, a: Attempt)
    requires IsCall(now, assign, steps, i, k, id, a)
    ensures IsCall(now, assign, steps + [step], i, k, id, a)
  {
    WorldsStay(now, assign, steps, step);
  }

  lemma {:induction false} PrinterStays(now: Time, assign: Assigner, steps: seq<Step>, step: Step, line: Print)
    requires HasPrinter(now, assign, steps, line)
    ensures HasPrinter(now, assign, steps + [step], line)
  {
    var i: nat, k: nat, id, a :| IsPrintedBy(now, assign, steps, i, k, id, a, line);
    CallStays(now, assign, steps, step, i, k, id, a);
    WorldsStay(now, assign, steps, step);
    assert IsPrintedBy(now, assign, steps + [step], i, k, id, a, line);
  }

  lemma {:induction false} CallGoesOn(now: Time, assign: Assigner, steps: seq<Step>, step: Step, id: Id, a: Attempt)
    requires HasCall(now, assign, steps, id, a) && IsLive(Next(Run(Genesis(now, assign), steps), step), id, a)
    ensures HasCall(now, assign, steps + [step], id, a)
  {
    var i: nat :| IsCall(now, assign, steps, i, |steps|, id, a);
    CallStays(now, assign, steps, step, i, |steps|, id, a);
    LastWorld(now, assign, steps, step);
    CallLonger(now, assign, steps + [step], i, |steps|, id, a);
  }

  lemma {:induction false} CallLonger(now: Time, assign: Assigner, steps: seq<Step>, i: nat, k: nat, id: Id, a: Attempt)
    requires k + 1 == |steps| && IsCall(now, assign, steps, i, k, id, a) && IsLive(WorldAt(now, assign, steps, k + 1), id, a)
    ensures HasCall(now, assign, steps, id, a)
  {
    assert IsCall(now, assign, steps, i, k + 1, id, a);
  }

  lemma {:induction false} CallBegins(now: Time, assign: Assigner, steps: seq<Step>, id: Id, a: Attempt)
    requires var w := Run(Genesis(now, assign), steps);
             && id !in w.attempts && Begin(w.plant.desk, a.wave, a.audience) == Begun(a)
             && IsLive(Next(w, Moved(Start(id, a.wave, a.audience))), id, a)
    ensures HasCall(now, assign, steps + [Moved(Start(id, a.wave, a.audience))], id, a)
  {
    var step := Moved(Start(id, a.wave, a.audience));
    WorldsStay(now, assign, steps, step);
    assert IsCall(now, assign, steps + [step], |steps|, |steps| + 1, id, a);
  }

  lemma {:induction false} LinePrints(now: Time, assign: Assigner, steps: seq<Step>, step: Step, line: Print)
    requires var w := Run(Genesis(now, assign), steps);
             && step.Moved? && step.move.PieceStep? && IsNewPrint(w, step.move.attempt, line)
             && line in Next(w, step).plant.prints
             && HasCall(now, assign, steps, step.move.attempt, w.attempts[step.move.attempt])
    ensures HasPrinter(now, assign, steps + [step], line)
  {
    var w, id := Run(Genesis(now, assign), steps), step.move.attempt;
    var a := w.attempts[id];
    var i: nat :| IsCall(now, assign, steps, i, |steps|, id, a);
    CallStays(now, assign, steps, step, i, |steps|, id, a);
    WorldsStay(now, assign, steps, step);
    assert IsPrintedBy(now, assign, steps + [step], i, |steps|, id, a, line);
  }

  /** A step adds no attempt but the one it starts, and no print but that of a live attempt's next contact. */
  ghost predicate AddsFrom(w: World, step: Step, after: World) {
    && (forall id :: id in after.attempts ==> IsLive(w, id, after.attempts[id]) || IsNewAttempt(w, step, id, after.attempts[id]))
    && (forall line :: line in after.plant.prints ==> line in w.plant.prints || IsPrintOf(w, step, line))
  }

  predicate IsNewAttempt(w: World, step: Step, id: Id, a: Attempt) {
    && id !in w.attempts && step == Moved(Start(id, a.wave, a.audience))
    && Begin(w.plant.desk, a.wave, a.audience) == Begun(a)
  }

  predicate IsPrintOf(w: World, step: Step, line: Print) {
    step.Moved? && step.move.PieceStep? && IsNewPrint(w, step.move.attempt, line)
  }

  lemma {:induction false} StepAdds(w: World, step: Step)
    ensures AddsFrom(w, step, Next(w, step))
  {
    if step.Moved? {
      match step.move
      case Start(id, wave, audience) =>
      case PieceStep(id, answer, outcome) =>
        if PieceReady(w, id) {
          PieceAdds(w, id, answer, outcome);
        }
      case Finish(id) =>
    }
  }

  lemma {:induction false} PieceAdds(w: World, id: Id, answer: Receipt, outcome: Outcome)
    requires PieceReady(w, id)
    ensures var after := TakePiece(w, id, answer, outcome);
            && (forall other :: other in after.attempts ==> IsLive(w, other, after.attempts[other]))
            && (forall line :: line in after.plant.prints ==> line in w.plant.prints || IsNewPrint(w, id, line))
  {
  }

  lemma {:induction false} PrintsAreTraced(now: Time, assign: Assigner, steps: seq<Step>)
    ensures AllTraced(now, assign, steps, Run(Genesis(now, assign), steps))
  {
    if steps != [] {
      var front, step := steps[..|steps| - 1], steps[|steps| - 1];
      PrintsAreTraced(now, assign, front);
      assert steps == front + [step];
      TracedNext(now, assign, front, step);
    }
  }

  lemma {:induction false} TracedNext(now: Time, assign: Assigner, front: seq<Step>, step: Step)
    requires AllTraced(now, assign, front, Run(Genesis(now, assign), front))
    ensures AllTraced(now, assign, front + [step], Next(Run(Genesis(now, assign), front), step))
  {
    var w := Run(Genesis(now, assign), front);
    var after := Next(w, step);
    StepAdds(w, step);
    forall id | id in after.attempts ensures HasCall(now, assign, front + [step], id, after.attempts[id]) {
      if IsLive(w, id, after.attempts[id]) {
        CallGoesOn(now, assign, front, step, id, after.attempts[id]);
      } else {
        CallBegins(now, assign, front, id, after.attempts[id]);
      }
    }
    forall line | line in after.plant.prints ensures HasPrinter(now, assign, front + [step], line) {
      if line in w.plant.prints {
        PrinterStays(now, assign, front, step, line);
      } else {
        LinePrints(now, assign, front, step, line);
      }
    }
  }

  /** Each call resolves its wave's rule when it begins, as execute_wave does. */
  predicate AllResolve(now: Time, assign: Assigner, steps: seq<Step>) {
    forall i :: 0 <= i < |steps| ==> Resolves(DeskAt(now, assign, steps, i), steps[i])
  }

  predicate Resolves(d: Desk, step: Step) {
    step.Moved? && step.move.Start? ==> step.move.audience == AudienceOf(d, step.move.wave)
  }

  /** A founder's seed, or a contact no flag, failed address, opt-out or undeliverable primary row keeps from
      mail, that the rule's keys reach, within its cap. */
  ghost predicate MayBeMailed(d: Desk, rule: AudienceRule, id: Id) {
    && id in d.leads
    && (d.leads[id].isSeed ||
        (&& !d.leads[id].doNotMail && !d.leads[id].addressUndeliverable && d.leads[id].stage != Suppressed
         && (d.leads[id].primary.Some? ==> d.leads[id].primary.value.verdict != Some("undeliverable"))
         && IsSampled(d.leads, d.pieces.Keys, rule, id) && !LosesThePoint(d.leads, d.pieces.Keys, rule, id)))
  }

  lemma {:induction false} AudienceMayBeMailed(d: Desk, wave: Id, contact: Id)
    requires wave in d.waves && contact in AudienceOf(d, wave)
    ensures MayBeMailed(d, d.waves[wave].card.rule, contact)
  {
    MailsExactly(d.leads, d.pieces.Keys, d.waves[wave].card.rule, contact);
    assert d.leads[contact].isSeed || CanReceive(d.leads[contact]);
  }

  /** Over every run in which calls resolve their own audience, killed and resumed at will: each line ever
      printed was printed by the k-th step, a piece of the call that the i-th step began; when that call
      began the contact was mailable under the rule the wave was approved with, and that rule is the
      wave's rule still. */
  lemma {:induction false} EachPrintWasMailable(now: Time, assign: Assigner, steps: seq<Step>, line: Print)
    returns (i: nat, k: nat, id: Id, a: Attempt)
    requires IsAssignment(assign) && AllResolve(now, assign, steps)
    requires line in Run(Genesis(now, assign), steps).plant.prints
    ensures IsPrintedBy(now, assign, steps, i, k, id, a, line)
    ensures var later := Run(Genesis(now, assign), steps).plant.desk;
            && line.code.wave in later.waves
            && MayBeMailed(DeskAt(now, assign, steps, i), later.waves[line.code.wave].card.rule, line.code.contact)
  {
    PrintsAreTraced(now, assign, steps);
    i, k, id, a :| IsPrintedBy(now, assign, steps, i, k, id, a, line);
    PrinterReached(now, assign, steps, i, k, id, a, line);
    ReachedWasMailable(now, assign, steps, i, line.code, a.audience);
  }

  lemma {:induction false} PrinterReached(now: Time, assign: Assigner, steps: seq<Step>, i: nat, k: nat, id: Id, a: Attempt, line: Print)
    requires IsPrintedBy(now, assign, steps, i, k, id, a, line) && AllResolve(now, assign, steps)
    ensures line.code.wave == a.wave && line.code.contact in a.audience
    ensures a.audience == AudienceOf(DeskAt(now, assign, steps, i), a.wave)
  {
    assert IsLive(WorldAt(now, assign, steps, k), id, a);
    assert Resolves(DeskAt(now, assign, steps, i), steps[i]);
  }

  lemma {:induction false} ReachedWasMailable(now: Time, assign: Assigner, steps: seq<Step>, i: nat, code: Code, audience: seq<Id>)
    requires IsAssignment(assign) && i <= |steps| && audience == AudienceOf(DeskAt(now, assign, steps, i), code.wave)
    requires code.contact in audience && Begin(DeskAt(now, assign, steps, i), code.wave, audience).Begun?
    ensures var later := Run(Genesis(now, assign), steps).plant.desk;
            && code.wave in later.waves
            && MayBeMailed(DeskAt(now, assign, steps, i), later.waves[code.wave].card.rule, code.contact)
  {
    var d := DeskAt(now, assign, steps, i);
    RuleStays(now, assign, steps, i, code.wave, audience);
    AudienceMayBeMailed(d, code.wave, code.contact);
  }

  /** The rule of a wave whose drop has begun is the rule it keeps. */
  lemma {:induction false} RuleStays(now: Time, assign: Assigner, steps: seq<Step>, i: nat, wave: Id, audience: seq<Id>)
    requires IsAssignment(assign) && i <= |steps|
    requires Begin(DeskAt(now, assign, steps, i), wave, audience).Begun?
    ensures var d, later := DeskAt(now, assign, steps, i), Run(Genesis(now, assign), steps).plant.desk;
            wave in d.waves && wave in later.waves && later.waves[wave].card == d.waves[wave].card
  {
    HoldsEverywhere(now, assign, steps[..i]);
    ApprovalsAreForever(now, assign, steps[..i], steps[i..]);
    assert steps[..i] + steps[i..] == steps;
    CardStays(DeskAt(now, assign, steps, i), Run(Genesis(now, assign), steps).plant.desk, wave, audience);
  }

  lemma {:induction false} CardStays(d: Desk, later: Desk, wave: Id, audience: seq<Id>)
    requires DeskInv(d) && Advances(d, later) && Begin(d, wave, audience).Begun?
    ensures wave in d.waves && wave in later.waves && later.waves[wave].card == d.waves[wave].card
  {
    BegunHasVariants(d, wave, audience);
  }
}
