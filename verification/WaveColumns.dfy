/** The lifecycle verbs and the drop read off the tables: what stops each verb, what it writes, when a drop
    begins, and what one contact's transaction leaves (service/waves.py, service/execution.py). */
module WaveColumns {
  import opened Types
  import opened Audience
  import opened Split
  import opened Waves
  import opened Drop
  import DropRuns
  import Custody
  import CustodyColumns

  // What stops a verb.

  /** What each verb checks, in order. */
  function Checks(verb: Verb): seq<Refused> {
    match verb
    case CreateVariant(_, _) => [EmptyHypothesis, DuplicateName]
    case UpdateVariant(_, _) => [EmptyHypothesis, Frozen, NoVariant, DuplicateName]
    case DraftWave(_, _) => [UnknownAudienceKey, BadLimit, DuplicateName]
    case UpdateWave(_, _) => [UnknownAudienceKey, BadLimit, NoWave, NotDraft, DuplicateName]
    case ApproveWave(_, _, _, _) =>
      [NoWave, NotDraft, NoVariants, UnknownVariant, NotFuture, UnknownAudienceKey, BadLimit, EmptyAudience, StalePreview]
    case CancelWave(_) => [NoWave, TooLate]
  }

  /** The rule that the verb brings, or finds on its wave. */
  ghost function RuleIn(d: Desk, verb: Verb): Option<AudienceRule> {
    match verb
    case DraftWave(_, card) => Some(card.rule)
    case UpdateWave(_, card) => Some(card.rule)
    case ApproveWave(id, _, _, _) => if id in d.waves then Some(d.waves[id].card.rule) else None
    case _ => None
  }

  ghost predicate NameIsTaken(d: Desk, verb: Verb) {
    match verb
    case CreateVariant(id, v) => exists other :: other in d.variants && other != id && d.variants[other].name == v.name
    case UpdateVariant(id, v) => exists other :: other in d.variants && other != id && d.variants[other].name == v.name
    case DraftWave(id, card) => exists other :: other in d.waves && other != id && IsNamed(d.waves[other], card.name)
    case UpdateWave(id, card) => exists other :: other in d.waves && other != id && IsNamed(d.waves[other], card.name)
    case _ => false
  }

  /** A wave that is not cancelled bears the name. */
  ghost predicate IsNamed(wave: Wave, name: string) {
    wave.card.name == name && !wave.status.Cancelled?
  }

  /** The preview does not show what the wave would now be approved with. */
  ghost predicate IsStale(d: Desk, card: Card, seen: Fingerprint, audience: seq<Id>) {
    || !CustodyColumns.AreInOrder(seen.audience, set id | id in audience)
    || seen.split != card.split
    || !(forall v :: v in seen.creatives <==> v in card.split && v in d.variants)
    || exists v :: v in seen.creatives && v in d.variants && seen.creatives[v] != d.variants[v].creative
  }

  /** What each refusal says of the verb, on its own. */
  ghost predicate Stops(d: Desk, now: Time, verb: Verb, why: Refused) {
    match why
    case EmptyHypothesis => (verb.CreateVariant? || verb.UpdateVariant?) && !CustodyColumns.HasWord(verb.variant.hypothesis)
    case DuplicateName => NameIsTaken(d, verb)
    case Frozen => exists id :: id in d.waves && d.waves[id].approval.Some? && verb.id in d.waves[id].card.split
    case NoVariant => verb.id !in d.variants
    case UnknownAudienceKey => RuleIn(d, verb).Some? && RuleIn(d, verb).value.unknown != {}
    case BadLimit => RuleIn(d, verb).Some? && RuleIn(d, verb).value.limit.Some? && RuleIn(d, verb).value.limit.value <= 0
    case NoWave => verb.id !in d.waves
    case NotDraft => verb.id in d.waves && !d.waves[verb.id].status.Draft?
    case NoVariants => verb.id in d.waves && |d.waves[verb.id].card.split| == 0
    case UnknownVariant => verb.id in d.waves && exists v :: v in d.waves[verb.id].card.split && v !in d.variants
    case NotFuture => verb.id in d.waves && (d.waves[verb.id].card.scheduledFor.Some? ==> d.waves[verb.id].card.scheduledFor.value <= now / 86400)
    case EmptyAudience => verb.ApproveWave? && |verb.audience| == 0
    case StalePreview => verb.ApproveWave? && verb.id in d.waves && verb.seen.Some?
                         && IsStale(d, d.waves[verb.id].card, verb.seen.value, verb.audience)
    case TooLate => verb.id in d.waves && (d.waves[verb.id].status.Executing? || d.waves[verb.id].status.Sent?)
  }

  ghost predicate IsFirstStop(d: Desk, now: Time, verb: Verb, i: nat) {
    i < |Checks(verb)| && Stops(d, now, verb, Checks(verb)[i]) && forall j :: 0 <= j < i ==> !Stops(d, now, verb, Checks(verb)[j])
  }

  lemma {:induction false} TailInOrder(ids: seq<Id>, s: set<Id>)
    requires CustodyColumns.AreInOrder(ids, s) && ids != []
    ensures CustodyColumns.AreInOrder(ids[1..], s - {ids[0]})
    ensures forall x :: x in s ==> ids[0] <= x
  {
    forall x | x in s ensures exists k :: 0 <= k < |ids| && ids[k] == x {
      assert x in ids;
    }
    forall x | x in s - {ids[0]} ensures x in ids[1..] {
      var k :| 0 <= k < |ids| && ids[k] == x;
      assert ids[1..][k - 1] == x;
    }
    forall k | 0 <= k < |ids[1..]| ensures ids[1..][k] in s - {ids[0]} {
      assert ids[k + 1] in ids;
    }
  }

  lemma {:induction false} HasFirst(ids: seq<Id>, s: set<Id>)
    requires CustodyColumns.AreInOrder(ids, s)
    ensures ids == [] <==> s == {}
  {
    if ids != [] {
      assert ids[0] in s;
    }
  }

  lemma {:induction false} OrderIsUnique(a: seq<Id>, b: seq<Id>, s: set<Id>)
    requires CustodyColumns.AreInOrder(a, s) && CustodyColumns.AreInOrder(b, s)
    ensures a == b
  {
    HasFirst(a, s);
    HasFirst(b, s);
    if a != [] {
      TailInOrder(a, s);
      TailInOrder(b, s);
      assert a[0] in s && b[0] in s;
      OrderIsUnique(a[1..], b[1..], s - {a[0]});
      assert a == [a[0]] + a[1..] && b == [b[0]] + b[1..];
    }
  }

  lemma {:induction false} InOrderIsAscending(ids: seq<Id>, s: set<Id>)
    ensures CustodyColumns.AreInOrder(ids, s) <==> ids == Ascending(s)
  {
    if CustodyColumns.AreInOrder(ids, s) {
      OrderIsUnique(ids, Ascending(s), s);
    }
  }

  lemma {:induction false} StaleWhen(d: Desk, card: Card, seen: Fingerprint, audience: seq<Id>)
    ensures seen != FingerprintOf(d, card, audience) <==> IsStale(d, card, seen, audience)
  {
    InOrderIsAscending(seen.audience, Members(audience));
    assert Members(audience) == set id | id in audience;
    var creatives := CreativesOf(d, card.split);
    if !IsStale(d, card, seen, audience) {
      assert seen.creatives == creatives;
    }
  }

  lemma {:induction false} RuleStops(d: Desk, now: Time, verb: Verb)
    requires RuleIn(d, verb).Some?
    ensures RuleRefusal(RuleIn(d, verb).value)
            == if Stops(d, now, verb, UnknownAudienceKey) then Some(UnknownAudienceKey)
               else if Stops(d, now, verb, BadLimit) then Some(BadLimit) else None
  {
  }

  lemma {:induction false} NameStops(d: Desk, verb: Verb)
    ensures match verb
            case CreateVariant(id, v) => VariantNameTaken(d, id, v.name) <==> NameIsTaken(d, verb)
            case UpdateVariant(id, v) => VariantNameTaken(d, id, v.name) <==> NameIsTaken(d, verb)
            case DraftWave(id, card) => WaveNameTaken(d, id, card.name) <==> NameIsTaken(d, verb)
            case UpdateWave(id, card) => WaveNameTaken(d, id, card.name) <==> NameIsTaken(d, verb)
            case _ => true
  {
  }

  /** Where the verb stops in its checks: at the first that says so, or past the last. */
  ghost predicate StopsAt(d: Desk, now: Time, verb: Verb, r: Option<Refused>) {
    match r
    case Some(why) => exists i: nat :: IsFirstStop(d, now, verb, i) && Checks(verb)[i] == why
    case None => forall i :: 0 <= i < |Checks(verb)| ==> !Stops(d, now, verb, Checks(verb)[i])
  }

  lemma {:induction false} FirstStop(d: Desk, now: Time, verb: Verb, i: nat)
    requires IsFirstStop(d, now, verb, i)
    ensures StopsAt(d, now, verb, Some(Checks(verb)[i]))
  {
  }

  lemma {:induction false} VariantStops(d: Desk, now: Time, verb: Verb)
    requires verb.CreateVariant? || verb.UpdateVariant?
    ensures StopsAt(d, now, verb, Refusal(d, now, verb))
  {
    CustodyColumns.BlankWhen(verb.variant.hypothesis);
    NameStops(d, verb);
    if Refusal(d, now, verb).Some? {
      var why := Refusal(d, now, verb).value;
      FirstStop(d, now, verb, if why == EmptyHypothesis then 0 else if verb.CreateVariant? then 1
                              else if why == Frozen then 1 else if why == NoVariant then 2 else 3);
    }
  }

  lemma {:induction false} CardStops(d: Desk, now: Time, verb: Verb)
    requires verb.DraftWave? || verb.UpdateWave?
    ensures StopsAt(d, now, verb, Refusal(d, now, verb))
  {
    RuleStops(d, now, verb);
    NameStops(d, verb);
    if Refusal(d, now, verb).Some? {
      var why := Refusal(d, now, verb).value;
      FirstStop(d, now, verb, if why == UnknownAudienceKey then 0 else if why == BadLimit then 1
                              else if verb.DraftWave? then 2
                              else if why == NoWave then 2 else if why == NotDraft then 3 else 4);
    }
  }

  lemma {:induction false} CancelStops(d: Desk, now: Time, verb: Verb)
    requires verb.CancelWave?
    ensures StopsAt(d, now, verb, Refusal(d, now, verb))
  {
    if Refusal(d, now, verb).Some? {
      FirstStop(d, now, verb, if Refusal(d, now, verb).value == NoWave then 0 else 1);
    }
  }

  /** The checks before the rule is read. */
  lemma {:induction false} DraftStops(d: Desk, now: Time, verb: Verb)
    requires verb.ApproveWave? && verb.id in d.waves
    ensures var card := d.waves[verb.id].card;
            && (Stops(d, now, verb, NoVariants) <==> card.split == map[])
            && (Stops(d, now, verb, UnknownVariant) <==> !(card.split.Keys <= d.variants.Keys))
            && (Stops(d, now, verb, NotFuture) <==> card.scheduledFor.None? || card.scheduledFor.value <= DateOf(now))
            && (Stops(d, now, verb, StalePreview) <==> verb.seen.Some? && verb.seen.value != FingerprintOf(d, card, verb.audience))
  {
    var card := d.waves[verb.id].card;
    if verb.seen.Some? {
      StaleWhen(d, card, verb.seen.value, verb.audience);
    }
    assert |card.split| == 0 <==> card.split == map[];
  }

  lemma {:induction false} ApprovalStops(d: Desk, now: Time, verb: Verb)
    requires verb.ApproveWave?
    ensures StopsAt(d, now, verb, Refusal(d, now, verb))
  {
    var r := Refusal(d, now, verb);
    assert r == ApprovalRefusal(d, now, verb.id, verb.seen, verb.audience);
    if verb.id !in d.waves {
      FirstStop(d, now, verb, 0);
    } else {
      DraftStops(d, now, verb);
      RuleStops(d, now, verb);
      ApprovalOrder(d, now, verb, r);
    }
  }

  /** The answer of a chain of checks over any stops. */
  lemma {:induction false} FirstOfApproval(checks: seq<Refused>, stops: Refused -> bool, r: Option<Refused>) returns (i: nat)
    requires checks == [NoWave, NotDraft, NoVariants, UnknownVariant, NotFuture, UnknownAudienceKey, BadLimit, EmptyAudience, StalePreview]
    requires !stops(NoWave)
    requires r == (if stops(NotDraft) then Some(NotDraft) else if stops(NoVariants) then Some(NoVariants)
                   else if stops(UnknownVariant) then Some(UnknownVariant) else if stops(NotFuture) then Some(NotFuture)
                   else if stops(UnknownAudienceKey) then Some(UnknownAudienceKey) else if stops(BadLimit) then Some(BadLimit)
                   else if stops(EmptyAudience) then Some(EmptyAudience) else if stops(StalePreview) then Some(StalePreview) else None)
    ensures i <= 9 && (i < 9 ==> stops(checks[i]) && r == Some(checks[i])) && (i == 9 ==> r.None?)
    ensures forall j :: 0 <= j < i ==> !stops(checks[j])
  {
    i := if stops(NotDraft) then 1 else if stops(NoVariants) then 2 else if stops(UnknownVariant) then 3
         else if stops(NotFuture) then 4 else if stops(UnknownAudienceKey) then 5 else if stops(BadLimit) then 6
         else if stops(EmptyAudience) then 7 else if stops(StalePreview) then 8 else 9;
  }

  lemma {:induction false} ApprovalOrder(d: Desk, now: Time, verb: Verb, r: Option<Refused>)
    requires verb.ApproveWave? && !Stops(d, now, verb, NoWave)
    requires r == (if Stops(d, now, verb, NotDraft) then Some(NotDraft) else if Stops(d, now, verb, NoVariants) then Some(NoVariants)
                   else if Stops(d, now, verb, UnknownVariant) then Some(UnknownVariant)
                   else if Stops(d, now, verb, NotFuture) then Some(NotFuture)
                   else if Stops(d, now, verb, UnknownAudienceKey) then Some(UnknownAudienceKey)
                   else if Stops(d, now, verb, BadLimit) then Some(BadLimit)
                   else if Stops(d, now, verb, EmptyAudience) then Some(EmptyAudience)
                   else if Stops(d, now, verb, StalePreview) then Some(StalePreview) else None)
    ensures StopsAt(d, now, verb, r)
  {
    var stops := (why: Refused) => Stops(d, now, verb, why);
    var i := FirstOfApproval(Checks(verb), stops, r);
    assert forall j :: 0 <= j < i ==> stops(Checks(verb)[j]) == Stops(d, now, verb, Checks(verb)[j]);
    if i < 9 {
      FirstStop(d, now, verb, i);
    }
  }

  /** Every verb is refused for the first of its checks that stops it, and goes ahead when none does. */
  lemma {:induction false} RefusedForFirstStop(d: Desk, now: Time, verb: Verb)
    ensures StopsAt(d, now, verb, Refusal(d, now, verb))
  {
    if verb.CreateVariant? || verb.UpdateVariant? {
      VariantStops(d, now, verb);
    } else if verb.DraftWave? || verb.UpdateWave? {
      CardStops(d, now, verb);
    } else if verb.ApproveWave? {
      ApprovalStops(d, now, verb);
    } else {
      CancelStops(d, now, verb);
    }
  }

  // What a verb writes.

  /** The one row of a verb. */
  ghost predicate WritesRow(d: Desk, now: Time, verb: Verb, later: Desk) {
    match verb
    case CreateVariant(id, v) => id in later.variants && later.variants[id] == v
    case UpdateVariant(id, v) => id in later.variants && later.variants[id] == v
    case DraftWave(id, card) => id in later.waves && later.waves[id] == Wave(card, Draft, None)
    case UpdateWave(id, card) =>
      id in d.waves && id in later.waves && later.waves[id].card == card
      && later.waves[id].status == d.waves[id].status && later.waves[id].approval == d.waves[id].approval
    case ApproveWave(id, approver, _, audience) =>
      id in d.waves && id in later.waves && later.waves[id].card == d.waves[id].card
      && later.waves[id].status == Approved && later.waves[id].approval == Some(Approval(approver, now, |audience|))
    case CancelWave(id) =>
      id in d.waves && id in later.waves && later.waves[id].card == d.waves[id].card
      && later.waves[id].status == Cancelled && later.waves[id].approval == d.waves[id].approval
  }

  ghost predicate OnVariants(verb: Verb) {
    verb.CreateVariant? || verb.UpdateVariant?
  }

  /** A verb that goes ahead writes its one row; every other row and table stays. */
  lemma {:induction false} VerbWrites(d: Desk, now: Time, verb: Verb)
    requires Refusal(d, now, verb).None? && (verb.CreateVariant? ==> verb.id !in d.variants) && (verb.DraftWave? ==> verb.id !in d.waves)
    ensures var later := Apply(d, now, verb);
            && WritesRow(d, now, verb, later)
            && later == d.(variants := later.variants, waves := later.waves)
            && later.variants.Keys == (if OnVariants(verb) then d.variants.Keys + {verb.id} else d.variants.Keys)
            && later.waves.Keys == (if OnVariants(verb) then d.waves.Keys else d.waves.Keys + {verb.id})
            && (forall id :: id in d.variants && !(OnVariants(verb) && id == verb.id) ==> later.variants[id] == d.variants[id])
            && (forall id :: id in d.waves && (OnVariants(verb) || id != verb.id) ==> later.waves[id] == d.waves[id])
  {
    assert IdIsNew(d, verb);
    assert Apply(d, now, verb) == Change(d, now, verb);
  }

  // When a drop begins.

  /** Within a tenth of the approved size, if the wave was approved for any. */
  ghost predicate IsWithinTenth(wave: Wave, resolved: nat) {
    wave.approval.Some? ==> 9 * wave.approval.value.count <= 10 * resolved <= 11 * wave.approval.value.count || wave.approval.value.count == 0
  }

  /** What the attempt carries: the wave's split, and the creative of each variant in it. */
  ghost predicate IsAttemptOf(d: Desk, id: Id, audience: seq<Id>, a: Attempt) {
    && id in d.waves && a.wave == id && a.audience == audience && a.split == d.waves[id].card.split
    && (forall v :: v in a.creatives <==> v in d.waves[id].card.split && v in d.variants)
    && forall v :: v in a.creatives ==> v in d.variants && a.creatives[v] == d.variants[v].creative
  }

  lemma {:induction false} BeginsWhen(d: Desk, id: Id, audience: seq<Id>)
    ensures match Begin(d, id, audience)
            case Missing => id !in d.waves
            case NotExecutable => id in d.waves && !d.waves[id].status.Approved? && !d.waves[id].status.Executing?
            case Halted => id in d.waves && (d.waves[id].status.Approved? || d.waves[id].status.Executing?)
                           && !IsWithinTenth(d.waves[id], |audience|)
            case Begun(a) => id in d.waves && (d.waves[id].status.Approved? || d.waves[id].status.Executing?)
                             && IsWithinTenth(d.waves[id], |audience|) && IsAttemptOf(d, id, audience, a)
  {
  }

  // One contact's transaction.

  ghost predicate HasPrinted(prints: seq<Print>, code: Code) {
    exists line :: line in prints && line.code == code
  }

  /** What the vendor's log becomes: a code printed before is not printed again. */
  ghost predicate IsPrinted(before: seq<Print>, after: seq<Print>, line: Print) {
    after == if HasPrinted(before, line.code) then before else before + [line]
  }

  /** The row a contact's transaction leaves under its code. A row submitted before stays as it was; any other
      is submitted now, with the receipt of the one line the vendor has printed for its code. */
  ghost predicate IsSubmittedRow(p: Plant, a: Attempt, contact: Id, variant: Id, after: Plant, row: Piece) {
    var code := Code(a.wave, contact);
    if code in p.desk.pieces && p.desk.pieces[code].status != Created then row == p.desk.pieces[code]
    else
      && (if code in p.desk.pieces
          then row.id == p.desk.pieces[code].id && row.contact == p.desk.pieces[code].contact && row.variant == p.desk.pieces[code].variant
          else row.id == |p.desk.pieces| && row.contact == contact && row.variant == variant)
      && row.status == Submitted
      && exists line :: line in after.prints && line.code == code && row.receipt == Some(line.receipt)
  }

  /** Whether the vendor is called for the contact. */
  ghost predicate IsOpen(p: Plant, code: Code) {
    code in p.desk.pieces ==> p.desk.pieces[code].status == Created
  }

  ghost function CreativeOf(a: Attempt, variant: Id): Creative {
    if variant in a.creatives then a.creatives[variant] else "{}"
  }

  /** One contact's transaction: the vendor's line, the row and the submission event under its key; every
      other row and table stays. */
  lemma {:induction false} CommitLeaves(p: Plant, a: Attempt, contact: Id, variant: Id, answer: Receipt, now: Time)
    ensures var code, after := Code(a.wave, contact), Commit(p, a, contact, variant, answer, now);
            && after == p.(desk := p.desk.(pieces := after.desk.pieces, events := after.desk.events), prints := after.prints)
            && (if IsOpen(p, code) then IsPrinted(p.prints, after.prints, Print(code, answer, CreativeOf(a, variant)))
                else after.prints == p.prints)
            && after.desk.pieces.Keys == p.desk.pieces.Keys + {code}
            && (forall other :: other in p.desk.pieces && other != code ==> after.desk.pieces[other] == p.desk.pieces[other])
            && IsSubmittedRow(p, a, contact, variant, after, after.desk.pieces[code])
            && after.desk.events
               == Append(p.desk.events, Event(Some(contact), Some(after.desk.pieces[code].id), System, PieceSubmitted, now,
                                              Some(SubmittedKey(after.desk.pieces[code].id)), Payload()))
  {
    PrintsLeft(p, a, contact, variant, answer);
    RowLeft(p, a, contact, variant, answer, now);
  }

  lemma {:induction false} PrintsLeft(p: Plant, a: Attempt, contact: Id, variant: Id, answer: Receipt)
    ensures var code, after := Code(a.wave, contact), PrintsAfter(p, a, contact, variant, answer);
            if IsOpen(p, code) then IsPrinted(p.prints, after, Print(code, answer, CreativeOf(a, variant))) else after == p.prints
  {
    PrintedWhen(p.prints, Code(a.wave, contact));
  }

  lemma {:induction false} RowLeft(p: Plant, a: Attempt, contact: Id, variant: Id, answer: Receipt, now: Time)
    ensures IsSubmittedRow(p, a, contact, variant, Commit(p, a, contact, variant, answer, now), RowAfter(p, a, contact, variant, answer))
  {
    var code, prints := Code(a.wave, contact), PrintsAfter(p, a, contact, variant, answer);
    if IsOpen(p, code) {
      var line := PrintOf(prints, code).value;
      assert line in prints && line.code == code;
    }
  }

  lemma {:induction false} PrintedWhen(prints: seq<Print>, code: Code)
    ensures PrintOf(prints, code).Some? <==> HasPrinted(prints, code)
  {
    if line :| line in prints && line.code == code {
      var i :| 0 <= i < |prints| && prints[i] == line;
    }
  }

  // Over every run of drops.

  /** The log announces the piece, to the contact its code is for. */
  ghost predicate IsAnnounced(events: seq<Event>, code: Code, piece: Id) {
    exists i :: 0 <= i < |events| && IsSubmissionOf(events[i], code, piece)
  }

  ghost predicate IsSubmissionOf(e: Event, code: Code, piece: Id) {
    && e.kind == PieceSubmitted && e.contact == Some(code.contact) && e.piece == Some(piece)
    && e.source == System && e.external == Some(SubmittedKey(piece))
  }

  ghost predicate AllAnnounced(d: Desk) {
    forall code :: code in d.pieces ==> IsAnnounced(d.events, code, d.pieces[code].id)
  }

  lemma {:induction false} AnnouncedStays(d: Desk, later: Desk)
    requires AllAnnounced(d) && d.events <= later.events && later.pieces.Keys == d.pieces.Keys
    requires forall code :: code in d.pieces ==> later.pieces[code].id == d.pieces[code].id
    ensures AllAnnounced(later)
  {
    forall code | code in later.pieces ensures IsAnnounced(later.events, code, later.pieces[code].id) {
      assert IsAnnounced(d.events, code, d.pieces[code].id);
      var i :| 0 <= i < |d.events| && IsSubmissionOf(d.events[i], code, d.pieces[code].id);
      assert later.events[i] == d.events[i];
    }
  }

  lemma {:induction false} CommitAnnounces(p: Plant, a: Attempt, contact: Id, variant: Id, answer: Receipt, now: Time)
    requires AllAnnounced(p.desk) && DropRuns.PiecesSound(p) && DropRuns.Numbered(p.desk.pieces, p.desk.events)
    ensures AllAnnounced(Commit(p, a, contact, variant, answer, now).desk)
  {
    var code := Code(a.wave, contact);
    var later := Commit(p, a, contact, variant, answer, now).desk;
    if code in p.desk.pieces {
      assert DropRuns.PieceSound(p, code, p.desk.pieces[code]);
      DropRuns.AgainIsNothing(p, a, contact, variant, answer, now);
    } else {
      CommitLeaves(p, a, contact, variant, answer, now);
      var id := |p.desk.pieces|;
      assert DropRuns.IsUnheardOf(p.desk.events, id);
      assert IsSubmissionOf(later.events[|p.desk.events|], code, id);
      forall other | other in p.desk.pieces ensures IsAnnounced(later.events, other, later.pieces[other].id) {
        assert IsAnnounced(p.desk.events, other, p.desk.pieces[other].id);
        var i :| 0 <= i < |p.desk.events| && IsSubmissionOf(p.desk.events[i], other, p.desk.pieces[other].id);
        assert later.events[i] == p.desk.events[i];
      }
    }
  }

  lemma {:induction false} WriteAnnounces(d: Desk, now: Time, write: DropRuns.Write)
    requires AllAnnounced(d)
    ensures AllAnnounced(DropRuns.AfterWrite(d, now, write))
  {
    if write.Lifecycle? {
      VerbAnnouncesNothing(d, now, write.verb);
    }
    AnnouncedStays(d, DropRuns.AfterWrite(d, now, write));
  }

  lemma {:induction false} VerbAnnouncesNothing(d: Desk, now: Time, verb: Verb)
    ensures Apply(d, now, verb).pieces == d.pieces && Apply(d, now, verb).events == d.events
  {
  }

  lemma {:induction false} PieceAnnounces(w: DropRuns.World, id: Id, answer: Receipt, outcome: DropRuns.Outcome)
    requires DropRuns.PiecesSound(w.plant) && DropRuns.Numbered(w.plant.desk.pieces, w.plant.desk.events)
    requires AllAnnounced(w.plant.desk) && DropRuns.PieceReady(w, id)
    ensures AllAnnounced(DropRuns.TakePiece(w, id, answer, outcome).plant.desk)
  {
    if outcome.Commits? {
      var a := w.attempts[id];
      var contact := a.audience[DropRuns.Finished(w.progress, id)];
      CommitAnnounces(w.plant, a, contact, VariantFor(w.plant, a, contact), answer, w.now);
    }
  }

  lemma {:induction false} StatusAnnounces(d: Desk, wave: Id, status: Status)
    requires AllAnnounced(d) && wave in d.waves
    ensures AllAnnounced(WithStatus(d, wave, status))
  {
    AnnouncedStays(d, WithStatus(d, wave, status));
  }

  lemma {:induction false} MoveAnnounces(w: DropRuns.World, move: DropRuns.Move)
    requires DropRuns.PiecesSound(w.plant) && DropRuns.Numbered(w.plant.desk.pieces, w.plant.desk.events)
    requires AllAnnounced(w.plant.desk)
    ensures AllAnnounced(DropRuns.AfterMove(w, move).plant.desk)
  {
    if move.PieceStep? {
      if DropRuns.PieceReady(w, move.attempt) {
        PieceAnnounces(w, move.attempt, move.answer, move.outcome);
      }
    } else if move.Start? {
      StartAnnounces(w, move.attempt, move.wave, move.audience);
    } else if DropRuns.FinishReady(w, move.attempt) {
      StatusAnnounces(w.plant.desk, w.attempts[move.attempt].wave, Sent);
    }
  }

  lemma {:induction false} StartAnnounces(w: DropRuns.World, id: Id, wave: Id, audience: seq<Id>)
    requires AllAnnounced(w.plant.desk)
    ensures AllAnnounced(DropRuns.AfterStart(w, id, wave, audience).plant.desk)
  {
    var beginning := Begin(w.plant.desk, wave, audience);
    if beginning.Begun? && beginning.attempt.wave in w.plant.desk.waves {
      StatusAnnounces(w.plant.desk, beginning.attempt.wave, Executing);
    }
  }

  lemma {:induction false} StepAnnounces(w: DropRuns.World, step: DropRuns.Step)
    requires DropRuns.PiecesSound(w.plant) && DropRuns.Numbered(w.plant.desk.pieces, w.plant.desk.events)
    requires AllAnnounced(w.plant.desk)
    ensures AllAnnounced(DropRuns.Next(w, step).plant.desk)
  {
    match step
    case Tick(_) =>
    case Written(write) => WriteAnnounces(w.plant.desk, w.now, write);
    case Moved(move) => MoveAnnounces(w, move);
  }

  lemma {:induction false} AnnouncedEverywhere(now: Time, assign: Assigner, steps: seq<DropRuns.Step>)
    requires DropRuns.IsAssignment(assign)
    ensures AllAnnounced(DropRuns.Run(DropRuns.Genesis(now, assign), steps).plant.desk)
  {
    if steps != [] {
      var front := steps[..|steps| - 1];
      AnnouncedEverywhere(now, assign, front);
      DropRuns.HoldsEverywhere(now, assign, front);
      StepAnnounces(DropRuns.Run(DropRuns.Genesis(now, assign), front), steps[|steps| - 1]);
    }
  }

  lemma {:induction false} SoundIsDealt(p: Plant, code: Code)
    requires code in p.desk.pieces && DropRuns.PieceSound(p, code, p.desk.pieces[code])
    ensures code.wave in p.desk.waves && p.desk.waves[code.wave].approval.Some? && p.desk.waves[code.wave].card.split != map[]
    ensures p.desk.pieces[code].variant == p.assign(p.desk.waves[code.wave].card.split, code.contact)
  {
  }

  /** Over every run, however drops are killed and resumed: each recorded piece has its submission on the log,
      to the contact its code is for, and is of the variant that its wave's split deals that contact. */
  lemma {:induction false} EachPieceIsAnnounced(now: Time, assign: Assigner, steps: seq<DropRuns.Step>, code: Code)
    requires DropRuns.IsAssignment(assign) && code in DropRuns.Run(DropRuns.Genesis(now, assign), steps).plant.desk.pieces
    ensures var d := DropRuns.Run(DropRuns.Genesis(now, assign), steps).plant.desk;
            && IsAnnounced(d.events, code, d.pieces[code].id)
            && code.wave in d.waves && d.waves[code.wave].approval.Some? && d.waves[code.wave].card.split != map[]
            && d.pieces[code].variant == assign(d.waves[code.wave].card.split, code.contact)
  {
    AnnouncedEverywhere(now, assign, steps);
    DropRuns.HoldsEverywhere(now, assign, steps);
    var p := DropRuns.Run(DropRuns.Genesis(now, assign), steps).plant;
    assert DropRuns.PieceSound(p, code, p.desk.pieces[code]);
    SoundIsDealt(p, code);
  }
  // What the vendor reports of a piece.

  /** A return is for good; a delivery is recorded unless the piece came back. */
  lemma {:induction false} DeliverySets(d: Desk, code: Code, isReturn: bool)
    requires code in d.pieces
    ensures var later := DropRuns.AfterDelivery(d, code, isReturn);
            && later == d.(pieces := later.pieces) && later.pieces.Keys == d.pieces.Keys
            && (forall other :: other in d.pieces && other != code ==> later.pieces[other] == d.pieces[other])
            && later.pieces[code].(status := d.pieces[code].status) == d.pieces[code]
            && later.pieces[code].status == (if isReturn || d.pieces[code].status == Returned then Returned else PieceStatus.Delivered)
  {
  }

  ghost predicate ReturnedIn(d: Desk, code: Code) {
    code in d.pieces && d.pieces[code].status == Returned
  }

  lemma {:induction false} WriteKeepsReturned(d: Desk, now: Time, write: DropRuns.Write, code: Code)
    requires ReturnedIn(d, code)
    ensures ReturnedIn(DropRuns.AfterWrite(d, now, write), code)
  {
    if write.Lifecycle? {
      VerbAnnouncesNothing(d, now, write.verb);
    } else if write.Delivery? && write.code in d.pieces {
      DeliverySets(d, write.code, write.isReturn);
    }
  }

  lemma {:induction false} StepKeepsReturned(w: DropRuns.World, step: DropRuns.Step, code: Code)
    requires ReturnedIn(w.plant.desk, code)
    ensures ReturnedIn(DropRuns.Next(w, step).plant.desk, code)
  {
    if step.Written? {
      WriteKeepsReturned(w.plant.desk, w.now, step.write, code);
    } else if step.Moved? {
      MoveKeepsReturned(w, step.move, code);
    }
  }

  lemma {:induction false} MoveKeepsReturned(w: DropRuns.World, move: DropRuns.Move, code: Code)
    requires ReturnedIn(w.plant.desk, code)
    ensures ReturnedIn(DropRuns.AfterMove(w, move).plant.desk, code)
  {
    if move.PieceStep? && DropRuns.PieceReady(w, move.attempt) {
      PieceKeepsReturned(w, move.attempt, move.answer, move.outcome, code);
    }
  }

  lemma {:induction false} PieceKeepsReturned(w: DropRuns.World, id: Id, answer: Receipt, outcome: DropRuns.Outcome, code: Code)
    requires ReturnedIn(w.plant.desk, code) && DropRuns.PieceReady(w, id)
    ensures ReturnedIn(DropRuns.TakePiece(w, id, answer, outcome).plant.desk, code)
  {
    if outcome.Commits? {
      var a := w.attempts[id];
      var contact := a.audience[DropRuns.Finished(w.progress, id)];
      CommitLeaves(w.plant, a, contact, VariantFor(w.plant, a, contact), answer, w.now);
    }
  }

  /** Over any further run a piece that came back stays so, whatever is delivered, resumed or submitted after. */
  lemma {:induction false} ReturnedForGood(w: DropRuns.World, steps: seq<DropRuns.Step>, code: Code)
    requires ReturnedIn(w.plant.desk, code)
    ensures ReturnedIn(DropRuns.Run(w, steps).plant.desk, code)
  {
    if steps != [] {
      ReturnedForGood(w, steps[..|steps| - 1], code);
      StepKeepsReturned(DropRuns.Run(w, steps[..|steps| - 1]), steps[|steps| - 1], code);
    }
  }
}
