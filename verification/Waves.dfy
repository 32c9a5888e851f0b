/** Variants and waves: a worksheet until approval, immutable afterwards (service/waves.py). */
module Waves {
  import opened Types
  import opened Audience
  import opened Split
  import Custody

  /** A creative is its canonical text. */
  type Creative = string

  datatype Status = Draft | Approved | Executing | Sent | Cancelled

  datatype Variant = Variant(name: string, hypothesis: string, creative: Creative)

  datatype Card = Card(name: string, drop: int, rule: AudienceRule, split: Weights, scheduledFor: Option<int>)

  /** What approval records about itself. */
  datatype Approval = Approval(approver: string, at: Time, count: nat)

  datatype Wave = Wave(card: Card, status: Status, approval: Option<Approval>)

  datatype PieceStatus = Created | Submitted | Delivered | Returned

  /** What the print vendor answers. */
  datatype Receipt = Receipt(externalId: string, cost: int)

  datatype Piece = Piece(id: Id, contact: Id, variant: Id, receipt: Option<Receipt>, status: PieceStatus)

  /** The tables the lifecycle reads and writes; a piece's id is its place in the order of insertion. */
  datatype Desk = Desk(
    leads: Leads,
    variants: map<Id, Variant>,
    waves: map<Id, Wave>,
    pieces: map<Code, Piece>,
    events: seq<Event>)

  datatype Refused =
    | EmptyHypothesis | DuplicateName | Frozen | NoVariant | UnknownAudienceKey | BadLimit
    | NoWave | NotDraft | NoVariants | UnknownVariant | NotFuture | EmptyAudience | StalePreview | TooLate

  /** The lifecycle verbs; an approval comes with what the wave's rule resolved to. */
  datatype Verb =
    | CreateVariant(id: Id, variant: Variant)
    | UpdateVariant(id: Id, variant: Variant)
    | DraftWave(id: Id, card: Card)
    | UpdateWave(id: Id, card: Card)
    | ApproveWave(id: Id, approver: string, seen: Option<Fingerprint>, audience: seq<Id>)
    | CancelWave(id: Id)

  /** What the state hash covers, and the hash is taken as injective: audience, split and creatives. */
  datatype Fingerprint = Fingerprint(audience: seq<Id>, split: Weights, creatives: map<Id, Creative>)

  /** What the rule of a wave resolves to now. */
  function AudienceOf(d: Desk, id: Id): seq<Id> {
    if id in d.waves then Resolution(d.leads, d.pieces.Keys, d.waves[id].card.rule).ids else []
  }

  function CreativesOf(d: Desk, split: Weights): map<Id, Creative> {
    map id | id in split && id in d.variants :: d.variants[id].creative
  }

  function Members(audience: seq<Id>): set<Id> {
    set id | id in audience
  }

  function FingerprintOf(d: Desk, card: Card, audience: seq<Id>): Fingerprint {
    Fingerprint(Ascending(Members(audience)), card.split, CreativesOf(d, card.split))
  }

  /** preview_audience: what the approval screen shows and what its hash covers. */
  function Preview(d: Desk, id: Id): Option<Fingerprint> {
    if id in d.waves then Some(FingerprintOf(d, d.waves[id].card, AudienceOf(d, id))) else None
  }

  /** A variant is frozen by any wave that carries it and was ever approved, whatever became of the wave. */
  predicate IsFrozen(d: Desk, variant: Id) {
    exists id :: id in d.waves && d.waves[id].approval.Some? && variant in d.waves[id].card.split
  }

  predicate VariantNameTaken(d: Desk, id: Id, name: string) {
    exists other :: other in d.variants && other != id && d.variants[other].name == name
  }

  /** Wave names are unique among the waves that are not cancelled. */
  predicate WaveNameTaken(d: Desk, id: Id, name: string) {
    exists other :: other in d.waves && other != id && d.waves[other].status != Cancelled && d.waves[other].card.name == name
  }

  function RuleRefusal(rule: AudienceRule): Option<Refused> {
    if rule.unknown != {} then Some(UnknownAudienceKey)
    else if !IsValidRule(rule) then Some(BadLimit)
    else None
  }

  function ApprovalRefusal(d: Desk, now: Time, id: Id, seen: Option<Fingerprint>, audience: seq<Id>): Option<Refused> {
    if DraftRefusal(d, now, id, audience).Some? then DraftRefusal(d, now, id, audience)
    else if seen.Some? && seen.value != FingerprintOf(d, d.waves[id].card, audience) then Some(StalePreview)
    else None
  }

  /** Everything that stops an approval except a stale preview. */
  function DraftRefusal(d: Desk, now: Time, id: Id, audience: seq<Id>): (r: Option<Refused>)
    ensures r.None? ==> id in d.waves && d.waves[id].card.split.Keys <= d.variants.Keys
  {
    if id !in d.waves then Some(NoWave) else
    var wave := d.waves[id];
    if wave.status != Draft then Some(NotDraft)
    else if wave.card.split == map[] then Some(NoVariants)
    else if !(wave.card.split.Keys <= d.variants.Keys) then Some(UnknownVariant)
    else if wave.card.scheduledFor.None? || wave.card.scheduledFor.value <= DateOf(now) then Some(NotFuture)
    else if RuleRefusal(wave.card.rule).Some? then RuleRefusal(wave.card.rule)
    else if audience == [] then Some(EmptyAudience)
    else None
  }

  function Refusal(d: Desk, now: Time, verb: Verb): Option<Refused> {
    match verb
    case CreateVariant(id, v) =>
      if Custody.IsBlank(v.hypothesis) then Some(EmptyHypothesis)
      else if VariantNameTaken(d, id, v.name) then Some(DuplicateName) else None
    case UpdateVariant(id, v) =>
      if Custody.IsBlank(v.hypothesis) then Some(EmptyHypothesis)
      else if IsFrozen(d, id) then Some(Frozen)
      else if id !in d.variants then Some(NoVariant)
      else if VariantNameTaken(d, id, v.name) then Some(DuplicateName) else None
    case DraftWave(id, card) =>
      if RuleRefusal(card.rule).Some? then RuleRefusal(card.rule)
      else if WaveNameTaken(d, id, card.name) then Some(DuplicateName) else None
    case UpdateWave(id, card) =>
      if RuleRefusal(card.rule).Some? then RuleRefusal(card.rule)
      else if id !in d.waves then Some(NoWave)
      else if d.waves[id].status != Draft then Some(NotDraft)
      else if WaveNameTaken(d, id, card.name) then Some(DuplicateName) else None
    case ApproveWave(id, _, seen, audience) => ApprovalRefusal(d, now, id, seen, audience)
    case CancelWave(id) =>
      if id !in d.waves then Some(NoWave)
      else if d.waves[id].status in {Executing, Sent} then Some(TooLate) else None
  }

  /** An insert mints an id no row has. */
  predicate IdIsNew(d: Desk, verb: Verb) {
    match verb
    case CreateVariant(id, _) => id !in d.variants
    case DraftWave(id, _) => id !in d.waves
    case _ => true
  }

  /** The tables after a verb; a refused one changes nothing. */
  function Apply(d: Desk, now: Time, verb: Verb): Desk {
    if !IdIsNew(d, verb) || Refusal(d, now, verb).Some? then d else Change(d, now, verb)
  }

  /** Who approved, when, and how large the audience was. */
  function WithApproval(d: Desk, now: Time, id: Id, approver: string, count: nat): Desk {
    if id !in d.waves then d else
    d.(waves := d.waves[id := d.waves[id].(status := Approved, approval := Some(Approval(approver, now, count)))])
  }

  function Change(d: Desk, now: Time, verb: Verb): Desk
    requires (verb.UpdateWave? || verb.ApproveWave? || verb.CancelWave?) ==> verb.id in d.waves
  {
    match verb
    case CreateVariant(id, v) => d.(variants := d.variants[id := v])
    case UpdateVariant(id, v) => d.(variants := d.variants[id := v])
    case DraftWave(id, card) => d.(waves := d.waves[id := Wave(card, Draft, None)])
    case UpdateWave(id, card) => d.(waves := d.waves[id := d.waves[id].(card := card)])
    case ApproveWave(id, approver, _, audience) => WithApproval(d, now, id, approver, |audience|)
    case CancelWave(id) => d.(waves := d.waves[id := d.waves[id].(status := Cancelled)])
  }

  // What an approved wave may rely on.

  ghost predicate WaveSound(d: Desk, wave: Wave) {
    && IsValidRule(wave.card.rule)
    && (wave.status in {Approved, Executing, Sent} ==> wave.approval.Some?)
    && (wave.status == Draft ==> wave.approval.None?)
    && (wave.approval.Some? ==>
          wave.card.split != map[] && wave.card.split.Keys <= d.variants.Keys && wave.approval.value.count > 0)
  }

  ghost predicate DeskInv(d: Desk) {
    forall id :: id in d.waves ==> WaveSound(d, d.waves[id])
  }

  /** Later tables keep every promise an approval made: the card, the approval and each creative in it. */
  ghost predicate Honours(d: Desk, later: Desk) {
    && (forall id :: id in d.waves ==> id in later.waves)
    && (forall id :: id in d.variants ==> id in later.variants)
    && (forall id :: id in d.waves && d.waves[id].approval.Some? ==>
          later.waves[id].card == d.waves[id].card && later.waves[id].approval == d.waves[id].approval)
    && (forall v :: v in d.variants && IsFrozen(d, v) ==> later.variants[v] == d.variants[v])
  }

  lemma {:induction false} HonoursTransitive(a: Desk, b: Desk, c: Desk)
    requires Honours(a, b) && Honours(b, c)
    ensures Honours(a, c)
  {
    forall v | v in a.variants && IsFrozen(a, v) ensures c.variants[v] == a.variants[v] {
      var id :| id in a.waves && a.waves[id].approval.Some? && v in a.waves[id].card.split;
      assert id in b.waves && b.waves[id].approval.Some? && v in b.waves[id].card.split;
      assert IsFrozen(b, v);
    }
  }

  lemma {:induction false} WaveChange(d: Desk, id: Id, wave: Wave)
    requires DeskInv(d) && WaveSound(d, wave)
    requires id in d.waves && d.waves[id].approval.Some? ==>
               wave.card == d.waves[id].card && wave.approval == d.waves[id].approval
    ensures DeskInv(d.(waves := d.waves[id := wave])) && Honours(d, d.(waves := d.waves[id := wave]))
  {
    var d' := d.(waves := d.waves[id := wave]);
    forall other | other in d'.waves ensures WaveSound(d', d'.waves[other]) {
      assert other != id ==> WaveSound(d, d.waves[other]);
    }
  }

  lemma {:induction false} VariantChange(d: Desk, id: Id, variant: Variant)
    requires DeskInv(d) && !(id in d.variants && IsFrozen(d, id))
    ensures DeskInv(d.(variants := d.variants[id := variant])) && Honours(d, d.(variants := d.variants[id := variant]))
  {
    var d' := d.(variants := d.variants[id := variant]);
    forall other | other in d'.waves ensures WaveSound(d', d'.waves[other]) {
      assert WaveSound(d, d.waves[other]);
    }
  }

  /** No verb, cancelling included, breaks what an approval promised. */
  lemma {:induction false} VerbHonours(d: Desk, now: Time, verb: Verb)
    requires DeskInv(d)
    ensures DeskInv(Apply(d, now, verb)) && Honours(d, Apply(d, now, verb))
  {
    if IdIsNew(d, verb) && Refusal(d, now, verb).None? {
      match verb
      case CreateVariant(id, v) => VariantChange(d, id, v);
      case UpdateVariant(id, v) => VariantChange(d, id, v);
      case DraftWave(id, card) => WaveChange(d, id, Wave(card, Draft, None));
      case UpdateWave(id, card) =>
        assert WaveSound(d, d.waves[id]);
        WaveChange(d, id, d.waves[id].(card := card));
      case ApproveWave(id, approver, _, audience) =>
        assert WaveSound(d, d.waves[id]);
        WaveChange(d, id, d.waves[id].(status := Approved, approval := Some(Approval(approver, now, |audience|))));
      case CancelWave(id) =>
        assert WaveSound(d, d.waves[id]);
        WaveChange(d, id, d.waves[id].(status := Cancelled));
    }
  }

  lemma {:induction false} SameParts(a: set<Id>, b: set<Id>, s: Weights, t: Weights, c: map<Id, Creative>, e: map<Id, Creative>)
    ensures Fingerprint(Ascending(a), s, c) == Fingerprint(Ascending(b), t, e) <==> a == b && s == t && c == e
  {
    if Ascending(a) == Ascending(b) {
      assert forall x :: x in a <==> x in Ascending(a);
    }
  }

  lemma {:induction false} SameFingerprint(shown: Desk, seen: Card, before: seq<Id>, d: Desk, card: Card, audience: seq<Id>)
    requires card.split.Keys <= d.variants.Keys
    ensures FingerprintOf(shown, seen, before) == FingerprintOf(d, card, audience) <==>
            && Members(audience) == Members(before)
            && card.split == seen.split
            && (forall v :: v in card.split ==> v in shown.variants && d.variants[v].creative == shown.variants[v].creative)
  {
    SameParts(Members(before), Members(audience), seen.split, card.split,
              CreativesOf(shown, seen.split), CreativesOf(d, card.split));
    SameCreatives(shown, d, card.split);
  }

  lemma {:induction false} SameCreatives(shown: Desk, d: Desk, split: Weights)
    requires split.Keys <= d.variants.Keys
    ensures CreativesOf(shown, split) == CreativesOf(d, split) <==>
            forall v :: v in split ==> v in shown.variants && d.variants[v].creative == shown.variants[v].creative
  {
    if CreativesOf(shown, split) == CreativesOf(d, split) {
      forall v | v in split ensures v in shown.variants && d.variants[v].creative == shown.variants[v].creative {
        assert v in CreativesOf(d, split);
        assert v in CreativesOf(shown, split);
      }
    }
  }

  /** A wave with a preview's fingerprint is approved only with the audience, the split and the
      creatives that the preview showed; and nothing else about a sound draft stops it. */
  lemma {:induction false} ApprovalMatchesPreview(shown: Desk, d: Desk, now: Time, id: Id)
    requires id in shown.waves && ApprovalRefusal(d, now, id, None, AudienceOf(d, id)).None?
    ensures ApprovalRefusal(d, now, id, Preview(shown, id), AudienceOf(d, id)).None? <==>
            && Members(AudienceOf(d, id)) == Members(AudienceOf(shown, id))
            && d.waves[id].card.split == shown.waves[id].card.split
            && (forall v :: v in d.waves[id].card.split ==>
                  v in shown.variants && d.variants[v].creative == shown.variants[v].creative)
  {
    FingerprintDecides(shown, d, now, id, AudienceOf(shown, id), AudienceOf(d, id));
  }

  lemma {:induction false} FingerprintDecides(shown: Desk, d: Desk, now: Time, id: Id, before: seq<Id>, audience: seq<Id>)
    requires id in shown.waves && ApprovalRefusal(d, now, id, None, audience).None?
    ensures ApprovalRefusal(d, now, id, Some(FingerprintOf(shown, shown.waves[id].card, before)), audience).None? <==>
            && Members(audience) == Members(before)
            && d.waves[id].card.split == shown.waves[id].card.split
            && (forall v :: v in d.waves[id].card.split ==>
                  v in shown.variants && d.variants[v].creative == shown.variants[v].creative)
  {
    SameFingerprint(shown, shown.waves[id].card, before, d, d.waves[id].card, audience);
  }

  lemma {:induction false} DraftRefused(d: Desk, now: Time, id: Id, approver: string, seen: Option<Fingerprint>, audience: seq<Id>)
    requires DraftRefusal(d, now, id, audience).Some?
    ensures var verb := Verb.ApproveWave(id, approver, seen, audience);
            Refusal(d, now, verb) == DraftRefusal(d, now, id, audience) && Apply(d, now, verb) == d
  {
  }

  /** The lifecycle verbs as the service runs them. */
  class Office {
    var leads: Leads
    var variants: map<Id, Variant>
    var waves: map<Id, Wave>
    var pieces: map<Code, Piece>
    var events: seq<Event>

    function Value(): Desk
      reads this
    {
      Desk(leads, variants, waves, pieces, events)
    }

    constructor (d: Desk)
      ensures Value() == d
    {
      leads, variants, waves, pieces, events := d.leads, d.variants, d.waves, d.pieces, d.events;
    }

    method NewVariant(id: Id, variant: Variant, now: Time) returns (r: Option<Refused>)
      requires id !in variants
      modifies this`variants
      ensures r == Refusal(old(Value()), now, CreateVariant(id, variant))
      ensures Value() == Apply(old(Value()), now, CreateVariant(id, variant))
    {
      if Custody.IsBlank(variant.hypothesis) {
        return Some(EmptyHypothesis);
      }
      if VariantNameTaken(Value(), id, variant.name) {
        return Some(DuplicateName);
      }
      variants := variants[id := variant];
      return None;
    }

    method EditVariant(id: Id, variant: Variant, now: Time) returns (r: Option<Refused>)
      modifies this`variants
      ensures r == Refusal(old(Value()), now, UpdateVariant(id, variant))
      ensures Value() == Apply(old(Value()), now, UpdateVariant(id, variant))
    {
      if Custody.IsBlank(variant.hypothesis) {
        return Some(EmptyHypothesis);
      }
      if IsFrozen(Value(), id) {
        return Some(Frozen);
      }
      if id !in variants {
        return Some(NoVariant);
      }
      if VariantNameTaken(Value(), id, variant.name) {
        return Some(DuplicateName);
      }
      variants := variants[id := variant];
      return None;
    }

    method NewWave(id: Id, card: Card, now: Time) returns (r: Option<Refused>)
      requires id !in waves
      modifies this`waves
      ensures r == Refusal(old(Value()), now, DraftWave(id, card))
      ensures Value() == Apply(old(Value()), now, DraftWave(id, card))
    {
      r := RuleRefusal(card.rule);
      if r.Some? {
        return;
      }
      if WaveNameTaken(Value(), id, card.name) {
        return Some(DuplicateName);
      }
      waves := waves[id := Wave(card, Draft, None)];
    }

    method EditWave(id: Id, card: Card, now: Time) returns (r: Option<Refused>)
      modifies this`waves
      ensures r == Refusal(old(Value()), now, UpdateWave(id, card))
      ensures Value() == Apply(old(Value()), now, UpdateWave(id, card))
    {
      r := RuleRefusal(card.rule);
      if r.Some? {
        return;
      }
      if id !in waves {
        return Some(NoWave);
      }
      if waves[id].status != Draft {
        return Some(NotDraft);
      }
      if WaveNameTaken(Value(), id, card.name) {
        return Some(DuplicateName);
      }
      waves := waves[id := waves[id].(card := card)];
    }

    method Approve(id: Id, approver: string, seen: Option<Fingerprint>, now: Time) returns (r: Option<Refused>)
      modifies this`waves
      ensures r == Refusal(old(Value()), now, Verb.ApproveWave(id, approver, seen, AudienceOf(old(Value()), id)))
      ensures Value() == Apply(old(Value()), now, Verb.ApproveWave(id, approver, seen, AudienceOf(old(Value()), id)))
    {
      var audience: seq<Id>;
      ghost var d := Value();
      r, audience := CheckDraft(id, now);
      if r.Some? {
        DraftRefused(d, now, id, approver, seen, AudienceOf(d, id));
        return;
      }
      r := Sign(id, approver, seen, audience, now);
    }

    /** The preconditions in the order they are checked; the audience is resolved when its turn comes. */
    method CheckDraft(id: Id, now: Time) returns (r: Option<Refused>, audience: seq<Id>)
      ensures r == DraftRefusal(Value(), now, id, AudienceOf(Value(), id))
      ensures r.None? ==> audience == AudienceOf(Value(), id)
    {
      audience := [];
      if id !in waves {
        return Some(NoWave), [];
      }
      var wave := waves[id];
      if wave.status != Draft {
        return Some(NotDraft), [];
      }
      if wave.card.split == map[] {
        return Some(NoVariants), [];
      }
      if !(wave.card.split.Keys <= variants.Keys) {
        return Some(UnknownVariant), [];
      }
      if wave.card.scheduledFor.None? || wave.card.scheduledFor.value <= DateOf(now) {
        return Some(NotFuture), [];
      }
      r := RuleRefusal(wave.card.rule);
      if r.Some? {
        return;
      }
      audience := ResolveWave(id);
      if audience == [] {
        r := Some(EmptyAudience);
      }
    }

    /** The fingerprint is compared last; then the approval is recorded. */
    method Sign(id: Id, approver: string, seen: Option<Fingerprint>, audience: seq<Id>, now: Time) returns (r: Option<Refused>)
      requires DraftRefusal(Value(), now, id, audience).None?
      modifies this`waves
      ensures r == Refusal(old(Value()), now, Verb.ApproveWave(id, approver, seen, audience))
      ensures Value() == Apply(old(Value()), now, Verb.ApproveWave(id, approver, seen, audience))
    {
      if seen.Some? && seen.value != FingerprintOf(Value(), waves[id].card, audience) {
        return Some(StalePreview);
      }
      waves := waves[id := waves[id].(status := Approved, approval := Some(Approval(approver, now, |audience|)))];
      return None;
    }

    method ResolveWave(id: Id) returns (audience: seq<Id>)
      requires id in waves && RuleRefusal(waves[id].card.rule).None?
      ensures audience == AudienceOf(Value(), id)
    {
      var resolved := ResolveAudience(leads, pieces.Keys, waves[id].card.rule);
      return resolved.value.ids;
    }

    method Cancel(id: Id, now: Time) returns (r: Option<Refused>)
      modifies this`waves
      ensures r == Refusal(old(Value()), now, CancelWave(id))
      ensures Value() == Apply(old(Value()), now, CancelWave(id))
    {
      if id !in waves {
        return Some(NoWave);
      }
      if waves[id].status in {Executing, Sent} {
        return Some(TooLate);
      }
      if waves[id].status != Cancelled {
        waves := waves[id := waves[id].(status := Cancelled)];
      }
      return None;
    }
  }
}
