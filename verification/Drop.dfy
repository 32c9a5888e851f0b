/** The drop: one transaction per piece, a vendor call inside it, and a crash anywhere
    (service/execution.py, execute_wave; the vendor's contract is that of seams/fakes.py). */
module Drop {
  import opened Types
  import opened Audience
  import opened Split
  import opened Waves

  /** One line of the vendor's print log. */
  datatype Print = Print(code: Code, receipt: Receipt, creative: Creative)

  /** The deterministic choice of a contact's variant under a split. */
  type Assigner = (Weights, Id) -> Id

  /** Our tables; the vendor's log, which no rollback of ours touches; and the assignment in use. */
  datatype Plant = Plant(desk: Desk, prints: seq<Print>, assign: Assigner)

  /** The service's own assignment. An approved wave has variants, so the fallback never shows. */
  function Assigned(split: Weights, contact: Id): Id {
    var variant := VariantOf(split, contact);
    if variant.Some? then variant.value else 0
  }

  /** What one call of execute_wave read at its start. */
  datatype Attempt = Attempt(wave: Id, audience: seq<Id>, split: Weights, creatives: map<Id, Creative>)

  datatype Beginning = Missing | NotExecutable | Halted | Begun(attempt: Attempt)

  /** Out of tolerance: more than a tenth of the approved size. */
  predicate IsDrift(approved: nat, resolved: nat) {
    approved != 0 && 10 * (if resolved < approved then approved - resolved else resolved - approved) > approved
  }

  function ApprovedCount(wave: Wave): nat {
    if wave.approval.Some? then wave.approval.value.count else 0
  }

  /** The gate of a drop whose rule resolves to this audience. */
  function Begin(d: Desk, id: Id, audience: seq<Id>): Beginning {
    if id !in d.waves then Missing
    else if d.waves[id].status !in {Approved, Executing} then NotExecutable
    else if IsDrift(ApprovedCount(d.waves[id]), |audience|) then Halted
    else Begun(Attempt(id, audience, d.waves[id].card.split, CreativesOf(d, d.waves[id].card.split)))
  }

  function WithStatus(d: Desk, id: Id, status: Status): Desk
    requires id in d.waves
  {
    d.(waves := d.waves[id := d.waves[id].(status := status)])
  }

  // The vendor.

  function PrintOf(prints: seq<Print>, code: Code): (r: Option<Print>)
    ensures r.None? <==> forall i :: 0 <= i < |prints| ==> prints[i].code != code
    ensures r.Some? ==> r.value in prints && r.value.code == code
  {
    if prints == [] then None
    else if prints[|prints| - 1].code == code then Some(prints[|prints| - 1])
    else PrintOf(prints[..|prints| - 1], code)
  }

  /** submit_piece: a code the vendor has printed is not printed again. */
  function Submit(prints: seq<Print>, code: Code, creative: Creative, answer: Receipt): (r: seq<Print>)
    ensures PrintOf(r, code).Some?
  {
    if PrintOf(prints, code).Some? then prints else prints + [Print(code, answer, creative)]
  }

  // One piece.

  function CreativeFor(a: Attempt, variant: Id): Creative {
    if variant in a.creatives then a.creatives[variant] else "{}"
  }

  /** The row the insert leaves under the code: the one already there, or a new one. */
  function Row(d: Desk, a: Attempt, contact: Id, variant: Id): Piece {
    if Code(a.wave, contact) in d.pieces then d.pieces[Code(a.wave, contact)]
    else Piece(|d.pieces|, contact, variant, None, Created)
  }

  function PrintsAfter(p: Plant, a: Attempt, contact: Id, variant: Id, answer: Receipt): seq<Print> {
    if Row(p.desk, a, contact, variant).status == Created
    then Submit(p.prints, Code(a.wave, contact), CreativeFor(a, variant), answer) else p.prints
  }

  function SubmittedEvent(piece: Piece, contact: Id, now: Time): Event {
    Event(Some(contact), Some(piece.id), System, PieceSubmitted, now, Some(SubmittedKey(piece.id)), Payload)
  }

  function RowAfter(p: Plant, a: Attempt, contact: Id, variant: Id, answer: Receipt): Piece {
    var row := Row(p.desk, a, contact, variant);
    if row.status == Created
    then row.(receipt := Some(PrintOf(PrintsAfter(p, a, contact, variant, answer), Code(a.wave, contact)).value.receipt),
              status := Submitted)
    else row
  }

  /** The whole transaction of one contact: the row, the vendor call, the event. */
  function Commit(p: Plant, a: Attempt, contact: Id, variant: Id, answer: Receipt, now: Time): Plant {
    var row := RowAfter(p, a, contact, variant, answer);
    p.(desk := p.desk.(pieces := p.desk.pieces[Code(a.wave, contact) := row],
                       events := Append(p.desk.events, SubmittedEvent(row, contact, now))),
       prints := PrintsAfter(p, a, contact, variant, answer))
  }

  // One call of execute_wave, alone.

  /** How a call ends: to the last contact, or killed at contact `at`, before or after the vendor
      printed its piece. Killed at the end of the audience is killed before the wave is marked sent. */
  datatype Ending = Clean | Killed(at: nat, printed: bool)

  function VariantFor(p: Plant, a: Attempt, contact: Id): Id {
    p.assign(a.split, contact)
  }

  function AfterPieces(p: Plant, a: Attempt, n: nat, vendor: Code -> Receipt, now: Time): Plant
    requires n <= |a.audience| && a.split != map[]
  {
    if n == 0 then p else
    CommitFor(AfterPieces(p, a, n - 1, vendor, now), a, a.audience[n - 1], vendor(Code(a.wave, a.audience[n - 1])), now)
  }

  function CommitFor(p: Plant, a: Attempt, contact: Id, answer: Receipt, now: Time): Plant
    requires a.split != map[]
  {
    Commit(p, a, contact, VariantFor(p, a, contact), answer, now)
  }

  function PiecesBeforeEnd(a: Attempt, ending: Ending): (n: nat)
    ensures n <= |a.audience|
  {
    if ending.Killed? && ending.at < |a.audience| then ending.at else |a.audience|
  }

  function AfterEnding(p: Plant, a: Attempt, ending: Ending, vendor: Code -> Receipt): Plant
    requires a.split != map[] && a.wave in p.desk.waves
  {
    if ending == Clean || ending.at > |a.audience| then p.(desk := WithStatus(p.desk, a.wave, Sent))
    else if ending.at < |a.audience| && ending.printed then
      var contact := a.audience[ending.at];
      p.(prints := PrintsAfter(p, a, contact, VariantFor(p, a, contact), vendor(Code(a.wave, contact))))
    else p
  }

  lemma {:induction false} PiecesKeepWaves(p: Plant, a: Attempt, n: nat, vendor: Code -> Receipt, now: Time)
    requires n <= |a.audience| && a.split != map[]
    ensures AfterPieces(p, a, n, vendor, now).desk.waves == p.desk.waves
  {
    if n > 0 {
      PiecesKeepWaves(p, a, n - 1, vendor, now);
    }
  }

  /** Everything after the gate has let the attempt begin. */
  function ExecuteFrom(p: Plant, a: Attempt, ending: Ending, vendor: Code -> Receipt, now: Time): Plant
    requires a.wave in p.desk.waves && a.split != map[]
  {
    var begun := p.(desk := WithStatus(p.desk, a.wave, Executing));
    PiecesKeepWaves(begun, a, PiecesBeforeEnd(a, ending), vendor, now);
    AfterEnding(AfterPieces(begun, a, PiecesBeforeEnd(a, ending), vendor, now), a, ending, vendor)
  }

  lemma {:induction false} BegunHasVariants(d: Desk, id: Id, audience: seq<Id>)
    requires DeskInv(d) && Begin(d, id, audience).Begun?
    ensures var a := Begin(d, id, audience).attempt;
            && id in d.waves && a.wave == id
            && a.split == d.waves[id].card.split && a.split != map[] && a.split.Keys <= d.variants.Keys
            && a.creatives == CreativesOf(d, a.split)
            && d.waves[id].status in {Approved, Executing} && d.waves[id].approval.Some?
            && !IsDrift(d.waves[id].approval.value.count, |a.audience|)
  {
    assert WaveSound(d, d.waves[id]);
  }

  /** execute_wave from its first transaction to its end or its death. */
  function Execute(p: Plant, id: Id, audience: seq<Id>, ending: Ending, vendor: Code -> Receipt, now: Time): Plant
    requires DeskInv(p.desk)
  {
    match Begin(p.desk, id, audience)
    case Begun(a) =>
      BegunHasVariants(p.desk, id, audience);
      ExecuteFrom(p, a, ending, vendor, now)
    case _ => p
  }

  /** What the caller sees; a killed call reports nothing. */
  datatype Report = Unstarted(why: Beginning) | Died | Finished(created: nat, submitted: nat)

  /** Of the first n contacts, how many had a row still to submit, each when its turn came. */
  function Submissions(p: Plant, a: Attempt, n: nat, vendor: Code -> Receipt, now: Time): nat
    requires n <= |a.audience| && a.split != map[]
  {
    if n == 0 then 0 else
    var before := AfterPieces(p, a, n - 1, vendor, now);
    Submissions(p, a, n - 1, vendor, now) + Submits(before.desk, a, a.audience[n - 1], VariantFor(before, a, a.audience[n - 1]))
  }

  function Submits(d: Desk, a: Attempt, contact: Id, variant: Id): nat {
    if Row(d, a, contact, variant).status == Created then 1 else 0
  }

  /** The report of a call, which counts rows made and rows submitted. */
  predicate IsReport(p: Plant, beginning: Beginning, ending: Ending, vendor: Code -> Receipt, now: Time, later: Desk, r: Report) {
    match beginning
    case Begun(a) =>
      if ending.Killed? && ending.at <= |a.audience| then r == Died
      else
        && a.split != map[] && a.wave in p.desk.waves && |p.desk.pieces| <= |later.pieces|
        && r == Finished(|later.pieces| - |p.desk.pieces|,
                         Submissions(p.(desk := WithStatus(p.desk, a.wave, Executing)), a, |a.audience|, vendor, now))
    case why => r == Unstarted(why)
  }

  /** The first n contacts are done, and counted. */
  ghost predicate IsSubmitted(p: Plant, a: Attempt, n: nat, vendor: Code -> Receipt, now: Time, later: Plant, created: nat, submitted: nat)
    requires n <= |a.audience| && a.split != map[]
  {
    && later == AfterPieces(p, a, n, vendor, now)
    && |p.desk.pieces| + created == |later.desk.pieces|
    && submitted == Submissions(p, a, n, vendor, now)
  }

  class Press {
    var desk: Desk
    var prints: seq<Print>

    function Value(): Plant
      reads this
    {
      Plant(desk, prints, Assigned)
    }

    constructor (p: Plant)
      ensures desk == p.desk && prints == p.prints
    {
      desk, prints := p.desk, p.prints;
    }

    /** The drop verb: the gate, then one transaction per contact, then the wave is sent. */
    method ExecuteWave(id: Id, ending: Ending, vendor: Code -> Receipt, now: Time) returns (r: Report)
      requires DeskInv(desk)
      modifies this
      ensures Value() == Execute(old(Value()), id, AudienceOf(old(desk), id), ending, vendor, now)
      ensures IsReport(old(Value()), Begin(old(desk), id, AudienceOf(old(desk), id)), ending, vendor, now, desk, r)
    {
      if id !in desk.waves {
        return Unstarted(Missing);
      }
      assert WaveSound(desk, desk.waves[id]);
      var audience := ResolveWave(id);
      r := ExecuteResolved(id, audience, ending, vendor, now);
    }

    method ResolveWave(id: Id) returns (audience: seq<Id>)
      requires id in desk.waves && IsValidRule(desk.waves[id].card.rule)
      ensures audience == AudienceOf(desk, id)
    {
      var resolved := ResolveAudience(desk.leads, desk.pieces.Keys, desk.waves[id].card.rule);
      return resolved.value.ids;
    }

    method ExecuteResolved(id: Id, audience: seq<Id>, ending: Ending, vendor: Code -> Receipt, now: Time) returns (r: Report)
      requires DeskInv(desk)
      modifies this
      ensures Value() == Execute(old(Value()), id, audience, ending, vendor, now)
      ensures IsReport(old(Value()), Begin(old(desk), id, audience), ending, vendor, now, desk, r)
    {
      var beginning := Begin(desk, id, audience);
      if !beginning.Begun? {
        return Unstarted(beginning);
      }
      BegunHasVariants(desk, id, audience);
      r := RunAttempt(beginning.attempt, ending, vendor, now);
    }

    method RunAttempt(a: Attempt, ending: Ending, vendor: Code -> Receipt, now: Time) returns (r: Report)
      requires a.wave in desk.waves && a.split != map[]
      modifies this
      ensures Value() == ExecuteFrom(old(Value()), a, ending, vendor, now)
      ensures IsReport(old(Value()), Begun(a), ending, vendor, now, desk, r)
    {
      StartWave(a.wave);
      PiecesKeepWaves(Value(), a, PiecesBeforeEnd(a, ending), vendor, now);
      var created, submitted := SubmitPieces(a, PiecesBeforeEnd(a, ending), vendor, now);
      r := EndAttempt(a, ending, vendor, created, submitted);
    }

    method EndAttempt(a: Attempt, ending: Ending, vendor: Code -> Receipt, created: nat, submitted: nat) returns (r: Report)
      requires a.wave in desk.waves && a.split != map[]
      modifies this
      ensures Value() == AfterEnding(old(Value()), a, ending, vendor) && desk.pieces == old(desk.pieces)
      ensures r == if ending.Killed? && ending.at <= |a.audience| then Died else Finished(created, submitted)
    {
      if ending == Clean || ending.at > |a.audience| {
        desk := WithStatus(desk, a.wave, Sent);
        return Finished(created, submitted);
      }
      if ending.at < |a.audience| && ending.printed {
        PrintOnly(a, a.audience[ending.at], vendor);
      }
      return Died;
    }

    method StartWave(id: Id)
      requires id in desk.waves
      modifies this`desk
      ensures desk == WithStatus(old(desk), id, Executing)
    {
      if desk.waves[id].status != Executing {
        desk := WithStatus(desk, id, Executing);
      } else {
        assert desk.waves == desk.waves[id := desk.waves[id]];
      }
    }

    /** The loop, up to the contact at which the process dies, if it does. */
    method SubmitPieces(a: Attempt, n: nat, vendor: Code -> Receipt, now: Time) returns (created: nat, submitted: nat)
      requires n <= |a.audience| && a.split != map[]
      modifies this
      ensures IsSubmitted(old(Value()), a, n, vendor, now, Value(), created, submitted)
    {
      ghost var begun := Value();
      created, submitted := 0, 0;
      var i := 0;
      while i < n
        invariant 0 <= i <= n
        invariant IsSubmitted(begun, a, i, vendor, now, Value(), created, submitted)
      {
        created, submitted := SubmitAt(begun, a, i, vendor, now, created, submitted);
        i := i + 1;
      }
    }

    method SubmitAt(ghost begun: Plant, a: Attempt, i: nat, vendor: Code -> Receipt, now: Time, created: nat, submitted: nat)
      returns (created': nat, submitted': nat)
      requires i < |a.audience| && a.split != map[] && IsSubmitted(begun, a, i, vendor, now, Value(), created, submitted)
      modifies this
      ensures IsSubmitted(begun, a, i + 1, vendor, now, Value(), created', submitted')
    {
      var isNew, isSubmitted := SubmitNext(a, a.audience[i], vendor(Code(a.wave, a.audience[i])), now);
      created', submitted' := created + isNew, submitted + isSubmitted;
    }

    /** The vendor printed; our transaction was rolled back. */
    method PrintOnly(a: Attempt, contact: Id, vendor: Code -> Receipt)
      requires a.split != map[]
      modifies this`prints
      ensures prints == PrintsAfter(old(Value()), a, contact, VariantFor(old(Value()), a, contact), vendor(Code(a.wave, contact)))
    {
      var variant := AssignVariant(a.split, contact);
      if Row(desk, a, contact, variant.value).status == Created {
        prints := Submit(prints, Code(a.wave, contact), CreativeFor(a, variant.value), vendor(Code(a.wave, contact)));
      }
    }

    method SubmitNext(a: Attempt, contact: Id, answer: Receipt, now: Time) returns (created: nat, submitted: nat)
      requires a.split != map[]
      modifies this
      ensures Value() == CommitFor(old(Value()), a, contact, answer, now)
      ensures created == |desk.pieces| - |old(desk.pieces)|
      ensures submitted == Submits(old(desk), a, contact, VariantFor(old(Value()), a, contact))
    {
      var variant := AssignVariant(a.split, contact);
      created, submitted := WritePiece(a, contact, variant.value, answer, now);
    }

    /** One contact's transaction. */
    method WritePiece(a: Attempt, contact: Id, variant: Id, answer: Receipt, now: Time)
      returns (created: nat, submitted: nat)
      modifies this
      ensures Value() == Commit(old(Value()), a, contact, variant, answer, now)
      ensures created == |desk.pieces| - |old(desk.pieces)|
      ensures submitted == Submits(old(desk), a, contact, variant)
    {
      var code := Code(a.wave, contact);
      var row := Row(desk, a, contact, variant);
      created := if code in desk.pieces then 0 else 1;
      submitted := 0;
      if row.status == Created {
        submitted := 1;
        prints := Submit(prints, code, CreativeFor(a, variant), answer);
        row := row.(receipt := Some(PrintOf(prints, code).value.receipt), status := Submitted);
      }
      desk := desk.(pieces := desk.pieces[code := row], events := Append(desk.events, SubmittedEvent(row, contact, now)));
    }
  }
}
