/** The nightly judgment: cooldown, priority, budget, and the record of what was said (judgment/digest.py). */
module Digest {
  import opened Types
  import opened Derivation

  /** One hit of one rule; a lower priority comes first. `toHouse` is a rule addressed to the house. */
  datatype Hit = Hit(rule: string, priority: int, contact: Option<Id>, wave: Option<Id>, toHouse: bool)

  /** What a night reads besides the log and the slots: the owners, whether partners can be reached at
      all, and its parameters. */
  datatype Night = Night(owners: map<Id, Id>, delivering: bool, budget: nat, cooldownDays: int, expireDays: nat)

  /** The next-action date of each contact that has one. */
  type Slots = map<Id, int>

  predicate IsNudge(e: Event) {
    e.kind == NudgeSent
  }

  /** The nudges that cool a hit down: any to its contact; else those of its rule and wave. */
  predicate Cools(e: Event, hit: Hit) {
    IsNudge(e) &&
    if hit.contact.Some? then e.contact == hit.contact
    else e.payload.rule == Some(hit.rule) && e.payload.wave == hit.wave
  }

  function LastNudge(log: seq<Event>, hit: Hit): (r: Option<Time>)
    ensures r.None? <==> forall i :: 0 <= i < |log| ==> !Cools(log[i], hit)
    ensures r.Some? ==> forall i :: 0 <= i < |log| && Cools(log[i], hit) ==> log[i].at <= r.value
    ensures r.Some? ==> exists i :: 0 <= i < |log| && Cools(log[i], hit) && log[i].at == r.value
  {
    if log == [] then None else
    var before := LastNudge(log[..|log| - 1], hit);
    var last := log[|log| - 1];
    assert log == log[..|log| - 1] + [last];
    if Cools(last, hit) && (before.None? || before.value < last.at) then Some(last.at) else before
  }

  predicate HasInboundAfter(log: seq<Event>, contact: Id, after: Time) {
    exists i :: 0 <= i < |log| && log[i].contact == Some(contact) && log[i].kind in INBOUND && log[i].at > after
  }

  /** Quiet through the cooldown, unless the contact has come in since the last nudge. */
  predicate InCooldown(log: seq<Event>, night: Night, hit: Hit, asOf: int) {
    var last := LastNudge(log, hit);
    && last.Some? && DateOf(last.value) > asOf - night.cooldownDays
    && (hit.contact.Some? ==> !HasInboundAfter(log, hit.contact.value, last.value))
  }

  predicate HasFutureAction(slots: Slots, hit: Hit, asOf: int) {
    hit.contact.Some? && hit.contact.value in slots && slots[hit.contact.value] > asOf
  }

  predicate IsReady(log: seq<Event>, slots: Slots, night: Night, hit: Hit, asOf: int) {
    !HasFutureAction(slots, hit, asOf) && !InCooldown(log, night, hit, asOf)
  }

  function Recipient(night: Night, hit: Hit): Id {
    if hit.toHouse || hit.contact.None? || hit.contact.value !in night.owners then HOUSE else night.owners[hit.contact.value]
  }

  // Priority order.

  predicate IsSorted(hits: seq<Hit>) {
    forall i, j :: 0 <= i < j < |hits| ==> hits[i].priority <= hits[j].priority
  }

  /** After the last hit of no greater priority number: equal hits keep their order. */
  function Placed(sorted: seq<Hit>, hit: Hit): (r: seq<Hit>)
    requires IsSorted(sorted)
    ensures IsSorted(r)
    ensures forall x :: x in r ==> x in sorted || x == hit
  {
    if sorted == [] || sorted[|sorted| - 1].priority <= hit.priority then sorted + [hit]
    else
      var last := sorted[|sorted| - 1];
      assert sorted == sorted[..|sorted| - 1] + [last];
      assert forall x :: x in sorted[..|sorted| - 1] ==> x.priority <= last.priority;
      var front := Placed(sorted[..|sorted| - 1], hit);
      assert forall i :: 0 <= i < |front| ==> front[i] in front && front[i].priority <= last.priority;
      front + [last]
  }

  lemma {:induction false} PlacedIsAdded(sorted: seq<Hit>, hit: Hit)
    requires IsSorted(sorted)
    ensures multiset(Placed(sorted, hit)) == multiset(sorted) + multiset{hit}
  {
    if !(sorted == [] || sorted[|sorted| - 1].priority <= hit.priority) {
      var front := sorted[..|sorted| - 1];
      assert sorted == front + [sorted[|sorted| - 1]];
      PlacedIsAdded(front, hit);
    }
  }

  function ByPriority(hits: seq<Hit>): (r: seq<Hit>)
    ensures IsSorted(r) && multiset(r) == multiset(hits)
  {
    if hits == [] then [] else
    assert hits == hits[..|hits| - 1] + [hits[|hits| - 1]];
    PlacedIsAdded(ByPriority(hits[..|hits| - 1]), hits[|hits| - 1]);
    Placed(ByPriority(hits[..|hits| - 1]), hits[|hits| - 1])
  }

  // Budget.

  datatype Sheet = Sheet(sent: seq<Hit>, deferred: seq<Hit>, skipped: nat)

  function CountFor(night: Night, hits: seq<Hit>, recipient: Id): nat {
    if hits == [] then 0 else
    CountFor(night, hits[..|hits| - 1], recipient) + if Recipient(night, hits[|hits| - 1]) == recipient then 1 else 0
  }

  /** What becomes of the prepared hits, in order: skipped while partners cannot be reached, sent within
      the recipient's budget, deferred beyond it. */
  function Dispatch(night: Night, hits: seq<Hit>): (r: Sheet)
    ensures |r.sent| + |r.deferred| + r.skipped == |hits|
  {
    if hits == [] then Sheet([], [], 0) else
    Added(night, Dispatch(night, hits[..|hits| - 1]), hits[|hits| - 1])
  }

  function Added(night: Night, before: Sheet, hit: Hit): (r: Sheet)
    ensures |r.sent| + |r.deferred| + r.skipped == |before.sent| + |before.deferred| + before.skipped + 1
  {
    if !night.delivering && Recipient(night, hit) != HOUSE then before.(skipped := before.skipped + 1)
    else if CountFor(night, before.sent, Recipient(night, hit)) < night.budget then before.(sent := before.sent + [hit])
    else before.(deferred := before.deferred + [hit])
  }

  function NudgeEvent(hit: Hit, now: Time): Event {
    Event(hit.contact, None, System, NudgeSent, now, None, Payload(rule := Some(hit.rule), wave := hit.wave))
  }

  function NudgeEvents(hits: seq<Hit>, now: Time): (r: seq<Event>)
    ensures |r| == |hits| && forall i :: 0 <= i < |r| ==> r[i] == NudgeEvent(hits[i], now)
  {
    if hits == [] then [] else NudgeEvents(hits[..|hits| - 1], now) + [NudgeEvent(hits[|hits| - 1], now)]
  }

  /** Slots that have aged past expiry are cleared. */
  function Unexpired(slots: Slots, asOf: int, days: nat): Slots {
    map c | c in slots && slots[c] >= asOf - days :: slots[c]
  }

  /** A nudge to a contact takes its slot. */
  function Taken(slots: Slots, sent: seq<Hit>, asOf: int): Slots {
    if sent == [] then slots else
    var before := Taken(slots, sent[..|sent| - 1], asOf);
    var hit := sent[|sent| - 1];
    if hit.contact.Some? then before[hit.contact.value := asOf] else before
  }

  function Ready(log: seq<Event>, slots: Slots, night: Night, hits: seq<Hit>, asOf: int): (r: seq<Hit>)
    ensures forall hit :: hit in r <==> hit in hits && IsReady(log, slots, night, hit, asOf)
  {
    if hits == [] then [] else
    var rest := Ready(log, slots, night, hits[..|hits| - 1], asOf);
    assert hits == hits[..|hits| - 1] + [hits[|hits| - 1]];
    if IsReady(log, slots, night, hits[|hits| - 1], asOf) then rest + [hits[|hits| - 1]] else rest
  }

  function SheetOf(log: seq<Event>, slots: Slots, night: Night, hits: seq<Hit>, asOf: int): Sheet {
    Dispatch(night, ByPriority(Ready(log, slots, night, hits, asOf)))
  }

  class Judgment {
    var log: seq<Event>
    var slots: Slots

    constructor (log: seq<Event>, slots: Slots)
      ensures this.log == log && this.slots == slots
    {
      this.log, this.slots := log, slots;
    }

    /** One night: clear what has expired, prepare every rule's hits against the tables as they are, then
        send, record or defer. */
    method Run(night: Night, hits: seq<Hit>, asOf: int, now: Time) returns (sheet: Sheet)
      modifies this
      ensures sheet == SheetOf(old(log), Unexpired(old(slots), asOf, night.expireDays), night, hits, asOf)
      ensures log == old(log) + NudgeEvents(sheet.sent, now)
      ensures slots == Taken(Unexpired(old(slots), asOf, night.expireDays), sheet.sent, asOf)
    {
      slots := Unexpired(slots, asOf, night.expireDays);
      var prepared := Prepare(log, slots, night, hits, asOf);
      sheet := Send(night, ByPriority(prepared), asOf, now);
    }

    /** Every rule's hits, less those under a future action or in their cooldown. */
    static method Prepare(log: seq<Event>, slots: Slots, night: Night, hits: seq<Hit>, asOf: int) returns (prepared: seq<Hit>)
      ensures prepared == Ready(log, slots, night, hits, asOf)
    {
      prepared := [];
      var i := 0;
      while i < |hits|
        invariant 0 <= i <= |hits|
        invariant prepared == Ready(log, slots, night, hits[..i], asOf)
      {
        assert hits[..i + 1][..i] == hits[..i];
        if IsReady(log, slots, night, hits[i], asOf) {
          prepared := prepared + [hits[i]];
        }
        i := i + 1;
      }
      assert hits[..|hits|] == hits;
    }

    method SendOne(night: Night, before: Sheet, counts: map<Id, nat>, hit: Hit, asOf: int, now: Time)
      returns (sheet: Sheet, counts': map<Id, nat>)
      requires AreCounts(counts, night, before.sent)
      modifies this
      ensures sheet == Added(night, before, hit) && AreCounts(counts', night, sheet.sent)
      ensures || (sheet.sent == before.sent && log == old(log) && slots == old(slots))
              || (sheet.sent == before.sent + [hit] && log == old(log) + [NudgeEvent(hit, now)]
                  && slots == Taken(old(slots), [hit], asOf))
    {
      var founder := Recipient(night, hit);
      var count := if founder in counts then counts[founder] else 0;
      CountMore(counts, night, before.sent, hit);
      assert count == CountFor(night, before.sent, founder);
      assert AreCounts(counts[founder := count + 1], night, before.sent + [hit]);
      sheet, counts' := before, counts;
      if !night.delivering && founder != HOUSE {
        sheet := sheet.(skipped := sheet.skipped + 1);
      } else if count < night.budget {
        Record(hit, asOf, now);
        sheet := sheet.(sent := sheet.sent + [hit]);
        counts' := counts[founder := count + 1];
      } else {
        sheet := sheet.(deferred := sheet.deferred + [hit]);
      }
    }

    /** The event and the slot, together. */
    method Record(hit: Hit, asOf: int, now: Time)
      modifies this
      ensures log == old(log) + [NudgeEvent(hit, now)] && slots == Taken(old(slots), [hit], asOf)
    {
      log := log + [NudgeEvent(hit, now)];
      assert [hit][..0] == [];
      if hit.contact.Some? {
        slots := slots[hit.contact.value := asOf];
      }
    }

    method Send(night: Night, hits: seq<Hit>, asOf: int, now: Time) returns (sheet: Sheet)
      modifies this
      ensures sheet == Dispatch(night, hits)
      ensures log == old(log) + NudgeEvents(sheet.sent, now)
      ensures slots == Taken(old(slots), sheet.sent, asOf)
    {
      sheet := Sheet([], [], 0);
      var counts: map<Id, nat> := map[];
      var i := 0;
      while i < |hits|
        invariant 0 <= i <= |hits| && sheet == Dispatch(night, hits[..i])
        invariant log == old(log) + NudgeEvents(sheet.sent, now)
        invariant slots == Taken(old(slots), sheet.sent, asOf)
        invariant AreCounts(counts, night, sheet.sent)
      {
        assert hits[..i + 1][..i] == hits[..i];
        ghost var before, logged, taken := sheet.sent, log, slots;
        sheet, counts := SendOne(night, sheet, counts, hits[i], asOf, now);
        StillLogged(old(log), logged, log, before, sheet.sent, hits[i], now);
        StillTaken(old(slots), taken, slots, before, sheet.sent, hits[i], asOf);
        i := i + 1;
      }
      assert hits[..|hits|] == hits;
    }
  }

  lemma {:induction false} StillTaken(start: Slots, before: Slots, slots: Slots, sent: seq<Hit>, more: seq<Hit>, hit: Hit, asOf: int)
    requires before == Taken(start, sent, asOf)
    requires (more == sent && slots == before) || (more == sent + [hit] && slots == Taken(before, [hit], asOf))
    ensures slots == Taken(start, more, asOf)
  {
    assert (sent + [hit])[..|sent|] == sent && [hit][..0] == [];
  }

  lemma {:induction false} StillLogged(start: seq<Event>, before: seq<Event>, log: seq<Event>, sent: seq<Hit>, more: seq<Hit>, hit: Hit, now: Time)
    requires before == start + NudgeEvents(sent, now)
    requires || (more == sent && log == before)
             || (more == sent + [hit] && log == before + [NudgeEvent(hit, now)])
    ensures log == start + NudgeEvents(more, now)
  {
    NudgesAppend(sent, hit, now);
  }

  lemma {:induction false} NudgesAppend(sent: seq<Hit>, hit: Hit, now: Time)
    ensures NudgeEvents(sent + [hit], now) == NudgeEvents(sent, now) + [NudgeEvent(hit, now)]
  {
    assert (sent + [hit])[..|sent|] == sent;
  }

  /** The running counts of a night. */
  ghost predicate AreCounts(counts: map<Id, nat>, night: Night, sent: seq<Hit>) {
    forall r :: (if r in counts then counts[r] else 0) == CountFor(night, sent, r)
  }

  lemma {:induction false} CountMore(counts: map<Id, nat>, night: Night, sent: seq<Hit>, hit: Hit)
    requires AreCounts(counts, night, sent)
    ensures var r := Recipient(night, hit);
            && (if r in counts then counts[r] else 0) == CountFor(night, sent, r)
            && AreCounts(counts[r := CountFor(night, sent, r) + 1], night, sent + [hit])
  {
    var later := counts[Recipient(night, hit) := CountFor(night, sent, Recipient(night, hit)) + 1];
    forall r ensures (if r in later then later[r] else 0) == CountFor(night, sent + [hit], r) {
      CountAppend(night, sent, hit, r);
    }
  }

  // What a night promises.

  lemma {:induction false} CountAppend(night: Night, hits: seq<Hit>, hit: Hit, recipient: Id)
    ensures CountFor(night, hits + [hit], recipient)
            == CountFor(night, hits, recipient) + if Recipient(night, hit) == recipient then 1 else 0
  {
    assert (hits + [hit])[..|hits|] == hits;
  }

  lemma {:induction false} FromTheHits(night: Night, hits: seq<Hit>)
    ensures forall h :: h in Dispatch(night, hits).sent || h in Dispatch(night, hits).deferred ==> h in hits
  {
    if hits != [] {
      assert hits == hits[..|hits| - 1] + [hits[|hits| - 1]];
      FromTheHits(night, hits[..|hits| - 1]);
    }
  }

  /** At most the budget goes to each recipient. */
  lemma {:induction false} WithinBudget(night: Night, hits: seq<Hit>, recipient: Id)
    ensures CountFor(night, Dispatch(night, hits).sent, recipient) <= night.budget
  {
    if hits != [] {
      WithinBudget(night, hits[..|hits| - 1], recipient);
      CountAppend(night, Dispatch(night, hits[..|hits| - 1]).sent, hits[|hits| - 1], recipient);
    }
  }

  /** Whatever is deferred found its recipient's budget spent, and on nothing of lower priority. */
  lemma {:induction false} DeferredWasOutranked(night: Night, hits: seq<Hit>, d: Hit)
    requires IsSorted(hits) && d in Dispatch(night, hits).deferred
    ensures CountFor(night, Dispatch(night, hits).sent, Recipient(night, d)) == night.budget
    ensures forall s :: s in Dispatch(night, hits).sent && Recipient(night, s) == Recipient(night, d) ==> s.priority <= d.priority
  {
    var front, hit := hits[..|hits| - 1], hits[|hits| - 1];
    var before := Dispatch(night, front);
    assert hits == front + [hit];
    WithinBudget(night, front, Recipient(night, d));
    FromTheHits(night, front);
    CountAppend(night, before.sent, hit, Recipient(night, d));
    if d in before.deferred {
      DeferredWasOutranked(night, front, d);
    } else {
      LastRanksLast(hits);
    }
  }

  lemma {:induction false} LastRanksLast(hits: seq<Hit>)
    requires IsSorted(hits) && hits != []
    ensures forall s :: s in hits[..|hits| - 1] ==> s.priority <= hits[|hits| - 1].priority
  {
  }

  /** Everything ready is sent, deferred, or was for a partner nobody could reach. */
  lemma {:induction false} NothingLost(night: Night, hits: seq<Hit>, hit: Hit)
    requires hit in hits && (night.delivering || Recipient(night, hit) == HOUSE)
    ensures hit in Dispatch(night, hits).sent || hit in Dispatch(night, hits).deferred
  {
    var front := hits[..|hits| - 1];
    assert hits == front + [hits[|hits| - 1]];
    if hit in front {
      NothingLost(night, front, hit);
    }
  }

  /** A night's sheet: budget and priority over what was ready. */
  lemma {:induction false} SheetKeepsBudget(log: seq<Event>, slots: Slots, night: Night, hits: seq<Hit>, asOf: int)
    ensures var r := SheetOf(log, slots, night, hits, asOf);
            && (forall recipient :: CountFor(night, r.sent, recipient) <= night.budget)
            && (forall s, d :: s in r.sent && d in r.deferred && Recipient(night, s) == Recipient(night, d) ==>
                  s.priority <= d.priority)
            && (forall s :: s in r.sent ==> s in hits && IsReady(log, slots, night, s, asOf))
  {
    var ready := Ready(log, slots, night, hits, asOf);
    var sorted := ByPriority(ready);
    FromTheHits(night, sorted);
    forall recipient ensures CountFor(night, Dispatch(night, sorted).sent, recipient) <= night.budget {
      WithinBudget(night, sorted, recipient);
    }
    forall d | d in Dispatch(night, sorted).deferred
      ensures forall s :: s in Dispatch(night, sorted).sent && Recipient(night, s) == Recipient(night, d) ==> s.priority <= d.priority
    {
      DeferredWasOutranked(night, sorted, d);
    }
    forall s | s in sorted ensures s in ready {
      assert s in multiset(sorted);
    }
  }

  // Across nights.

  /** The day that a nudge's night took for today, and how much of the log it had read. */
  datatype Origin = Origin(asOf: int, known: nat)

  /** `origins` remembers the night of each nudge. */
  datatype World = World(log: seq<Event>, slots: Slots, now: Time, origins: map<nat, Origin>)

  datatype Step =
    | Tick(seconds: nat)
    | Ingest(e: Event)
    | SetAction(contact: Id, day: int)
    | Nightly(night: Night, hits: seq<Hit>, asOf: int)

  function SentOn(w: World, night: Night, hits: seq<Hit>, asOf: int): seq<Hit> {
    SheetOf(w.log, Unexpired(w.slots, asOf, night.expireDays), night, hits, asOf).sent
  }

  function Next(w: World, step: Step): World {
    match step
    case Tick(seconds) => w.(now := w.now + seconds)
    case Ingest(e) => if IsNudge(e) then w else w.(log := Append(w.log, e))
    case SetAction(contact, day) => w.(slots := w.slots[contact := day])
    case Nightly(night, hits, asOf) => AfterNight(w, night, SentOn(w, night, hits, asOf), asOf)
  }

  function AfterNight(w: World, night: Night, sent: seq<Hit>, asOf: int): World {
    w.(log := w.log + NudgeEvents(sent, w.now),
       slots := Taken(Unexpired(w.slots, asOf, night.expireDays), sent, asOf),
       origins := map j | 0 <= j < |w.log| + |sent| && (j < |w.log| ==> j in w.origins) ::
                    if j < |w.log| then w.origins[j] else Origin(asOf, |w.log|))
  }

  function RunAll(w: World, steps: seq<Step>): World {
    if steps == [] then w else Next(RunAll(w, steps[..|steps| - 1]), steps[|steps| - 1])
  }

  function Genesis(now: Time): World {
    World([], map[], now, map[])
  }

  /** One nudge speaks of what another does: its contact, or its rule and wave. */
  predicate SameSubject(earlier: Event, nudge: Event) {
    if nudge.contact.Some? then earlier.contact == nudge.contact
    else earlier.payload.rule == nudge.payload.rule && earlier.payload.wave == nudge.payload.wave
  }

  predicate IsSuchNudge(log: seq<Event>, i: nat, nudge: Event) {
    i < |log| && IsNudge(log[i]) && SameSubject(log[i], nudge)
  }

  /** What lets one nudge follow another inside the cooldown: the night had read of an inbound since. */
  predicate IsAllowed(known: seq<Event>, earlier: Event, nudge: Event) {
    nudge.contact.Some? && HasInboundAfter(known, nudge.contact.value, earlier.at)
  }

  ghost predicate NudgeApart(w: World, j: nat, days: int)
    requires j < |w.log|
  {
    && j in w.origins && w.origins[j].known <= j
    && forall i: nat {:trigger IsSuchNudge(w.log, i, w.log[j])} ::
         i < w.origins[j].known && IsSuchNudge(w.log, i, w.log[j]) && w.origins[j].asOf < DateOf(w.log[i].at) + days ==>
           IsAllowed(w.log[..w.origins[j].known], w.log[i], w.log[j])
  }

  /** Every nudge keeps its distance from those of earlier nights. */
  ghost predicate Apart(w: World, days: int) {
    forall j :: 0 <= j < |w.log| && IsNudge(w.log[j]) ==> NudgeApart(w, j, days)
  }

  /** A hit that is ready although its subject was nudged within the cooldown has a contact with an
      inbound since. */
  lemma {:induction false} ReadyMeansInbound(log: seq<Event>, slots: Slots, night: Night, hit: Hit, asOf: int, now: Time, i: nat)
    requires IsReady(log, slots, night, hit, asOf)
    requires IsSuchNudge(log, i, NudgeEvent(hit, now)) && asOf < DateOf(log[i].at) + night.cooldownDays
    ensures IsAllowed(log, log[i], NudgeEvent(hit, now))
  {
    assert Cools(log[i], hit);
    var last := LastNudge(log, hit).value;
    assert log[i].at <= last;
    var k :| 0 <= k < |log| && log[k].contact == hit.contact && log[k].kind in INBOUND && log[k].at > last;
  }

  lemma {:induction false} NewNudgeApart(w: World, night: Night, hits: seq<Hit>, asOf: int, j: nat)
    requires var sent := SentOn(w, night, hits, asOf); |w.log| <= j < |w.log| + |sent|
    ensures var sent := SentOn(w, night, hits, asOf); NudgeApart(AfterNight(w, night, sent, asOf), j, night.cooldownDays)
  {
    var sent := SentOn(w, night, hits, asOf);
    var slots := Unexpired(w.slots, asOf, night.expireDays);
    var later := AfterNight(w, night, sent, asOf);
    var hit := sent[j - |w.log|];
    SheetKeepsBudget(w.log, slots, night, hits, asOf);
    assert hit in sent && later.log[j] == NudgeEvent(hit, w.now) && later.log[..|w.log|] == w.log;
    forall i: nat | i < |w.log| && IsSuchNudge(later.log, i, later.log[j]) && asOf < DateOf(later.log[i].at) + night.cooldownDays
      ensures IsAllowed(w.log, later.log[i], later.log[j])
    {
      assert later.log[i] == w.log[i] && IsSuchNudge(w.log, i, NudgeEvent(hit, w.now));
      ReadyMeansInbound(w.log, slots, night, hit, asOf, w.now, i);
    }
  }

  /** A nudge stays apart while the log only grows and its origin stands. */
  lemma {:induction false} NudgeStaysApart(w: World, later: World, j: nat, days: int)
    requires w.log <= later.log && j < |w.log| && NudgeApart(w, j, days)
    requires j in later.origins && later.origins[j] == w.origins[j]
    ensures NudgeApart(later, j, days)
  {
    var known := w.origins[j].known;
    assert later.log[..known] == w.log[..known] && later.log[j] == w.log[j];
    forall i: nat | i < known && IsSuchNudge(later.log, i, later.log[j]) && w.origins[j].asOf < DateOf(later.log[i].at) + days
      ensures IsAllowed(later.log[..known], later.log[i], later.log[j])
    {
      assert later.log[i] == w.log[i] && IsSuchNudge(w.log, i, w.log[j]);
    }
  }

  lemma {:induction false} NightKeepsApart(w: World, night: Night, hits: seq<Hit>, asOf: int)
    requires Apart(w, night.cooldownDays)
    ensures Apart(Next(w, Nightly(night, hits, asOf)), night.cooldownDays)
  {
    var sent := SentOn(w, night, hits, asOf);
    var later := AfterNight(w, night, sent, asOf);
    forall j | 0 <= j < |later.log| && IsNudge(later.log[j]) ensures NudgeApart(later, j, night.cooldownDays) {
      if j < |w.log| {
        assert later.log[j] == w.log[j];
        NudgeStaysApart(w, later, j, night.cooldownDays);
      } else {
        NewNudgeApart(w, night, hits, asOf, j);
      }
    }
  }

  lemma {:induction false} IngestKeepsApart(w: World, e: Event, days: int)
    requires Apart(w, days) && !IsNudge(e)
    ensures Apart(w.(log := Append(w.log, e)), days)
  {
    var later := w.(log := Append(w.log, e));
    forall j | 0 <= j < |later.log| && IsNudge(later.log[j]) ensures NudgeApart(later, j, days) {
      assert later.log[j] == w.log[j];
      NudgeStaysApart(w, later, j, days);
    }
  }

  lemma {:induction false} SlotsKeepApart(w: World, later: World, days: int)
    requires Apart(w, days) && later.log == w.log && later.origins == w.origins
    ensures Apart(later, days)
  {
    forall j | 0 <= j < |later.log| && IsNudge(later.log[j]) ensures NudgeApart(later, j, days) {
      NudgeStaysApart(w, later, j, days);
    }
  }

  /** Over any nights, each run as of whatever day, with feeds and human actions between them: a nudge
      that comes inside the cooldown of an earlier night's nudge to the same contact follows an inbound
      its night had read; one of a rule on a wave alone never comes inside it. */
  lemma {:induction false} CooldownHolds(now: Time, steps: seq<Step>, days: int)
    requires forall i :: 0 <= i < |steps| && steps[i].Nightly? ==> steps[i].night.cooldownDays == days
    ensures Apart(RunAll(Genesis(now), steps), days)
  {
    if steps != [] {
      var front, step := steps[..|steps| - 1], steps[|steps| - 1];
      CooldownHolds(now, front, days);
      var w := RunAll(Genesis(now), front);
      match step
      case Tick(_) => SlotsKeepApart(w, Next(w, step), days);
      case SetAction(_, _) => SlotsKeepApart(w, Next(w, step), days);
      case Ingest(e) =>
        if !IsNudge(e) {
          IngestKeepsApart(w, e, days);
        }
      case Nightly(night, hits, asOf) => NightKeepsApart(w, night, hits, asOf);
    }
  }

  // A person's next action.

  /** The step leaves this contact's action alone: no one resets it, and no night runs as of its day or later. */
  predicate IsBefore(step: Step, contact: Id, day: int) {
    && (step.Nightly? ==> step.asOf < day)
    && (step.SetAction? ==> step.contact != contact)
  }

  predicate NoNudgeSince(log: seq<Event>, n: nat, contact: Id) {
    forall i :: n <= i < |log| && IsNudge(log[i]) ==> log[i].contact != Some(contact)
  }

  lemma {:induction false} TakenElsewhere(slots: Slots, sent: seq<Hit>, asOf: int, contact: Id)
    requires contact in slots && forall hit :: hit in sent ==> hit.contact != Some(contact)
    ensures contact in Taken(slots, sent, asOf) && Taken(slots, sent, asOf)[contact] == slots[contact]
  {
    if sent != [] {
      var front := sent[..|sent| - 1];
      assert forall hit :: hit in front ==> hit in sent;
      TakenElsewhere(slots, front, asOf, contact);
    }
  }

  lemma {:induction false} SentElsewhere(w: World, night: Night, hits: seq<Hit>, asOf: int, contact: Id)
    requires contact in w.slots && asOf < w.slots[contact]
    ensures forall hit :: hit in SentOn(w, night, hits, asOf) ==> hit.contact != Some(contact)
  {
    var slots := Unexpired(w.slots, asOf, night.expireDays);
    SheetKeepsBudget(w.log, slots, night, hits, asOf);
    assert forall hit :: hit in SentOn(w, night, hits, asOf) ==> !HasFutureAction(slots, hit, asOf);
  }

  lemma {:induction false} NightLeaves(w: World, night: Night, hits: seq<Hit>, asOf: int, contact: Id)
    requires contact in w.slots && asOf < w.slots[contact]
    ensures var later := Next(w, Nightly(night, hits, asOf));
            && contact in later.slots && later.slots[contact] == w.slots[contact]
            && NoNudgeSince(later.log, |w.log|, contact)
  {
    var slots, sent := Unexpired(w.slots, asOf, night.expireDays), SentOn(w, night, hits, asOf);
    SentElsewhere(w, night, hits, asOf, contact);
    TakenElsewhere(slots, sent, asOf, contact);
    var later := AfterNight(w, night, sent, asOf);
    forall i | |w.log| <= i < |later.log| ensures later.log[i].contact != Some(contact) {
      assert sent[i - |w.log|] in sent;
    }
  }

  /** A person's action stands until its day: whatever happens before, no night overwrites it, and the
      contact is not nudged. */
  lemma {:induction false} ActionStands(w: World, steps: seq<Step>, contact: Id)
    requires contact in w.slots && forall i :: 0 <= i < |steps| ==> IsBefore(steps[i], contact, w.slots[contact])
    ensures var later := RunAll(w, steps);
            && contact in later.slots && later.slots[contact] == w.slots[contact]
            && |w.log| <= |later.log| && NoNudgeSince(later.log, |w.log|, contact)
  {
    if steps != [] {
      var front, step := steps[..|steps| - 1], steps[|steps| - 1];
      ActionStands(w, front, contact);
      assert IsBefore(step, contact, w.slots[contact]);
      if step.Nightly? {
        NightLeaves(RunAll(w, front), step.night, step.hits, step.asOf, contact);
      }
    }
  }

  // A night read off the log, the slots and the owners.

  /** A nudge about the hit's subject: its contact, or its rule on its wave, within the last cooldown days. */
  ghost predicate IsRecentNudge(e: Event, night: Night, hit: Hit, asOf: int) {
    && e.kind == NudgeSent && asOf - e.at / 86400 < night.cooldownDays
    && (match hit.contact
        case Some(_) => e.contact == hit.contact
        case None => e.payload.rule.Some? && e.payload.rule.value == hit.rule && e.payload.wave == hit.wave)
  }

  /** The contact has come in after that instant. */
  ghost predicate CameInAfter(log: seq<Event>, contact: Id, t: Time) {
    exists i :: 0 <= i < |log| && log[i].contact == Some(contact) && IsReply(log[i]) && t < log[i].at
  }

  /** Nudged within the cooldown, and not come in since. */
  ghost predicate IsQuieted(log: seq<Event>, night: Night, hit: Hit, asOf: int) {
    exists i :: 0 <= i < |log| && IsRecentNudge(log[i], night, hit, asOf)
                && (hit.contact.Some? ==> !CameInAfter(log, hit.contact.value, log[i].at))
  }

  ghost predicate MayBeSaid(log: seq<Event>, slots: Slots, night: Night, hit: Hit, asOf: int) {
    && (hit.contact.Some? && hit.contact.value in slots ==> slots[hit.contact.value] <= asOf)
    && !IsQuieted(log, night, hit, asOf)
  }

  lemma {:induction false} CameInWhen(log: seq<Event>, contact: Id, t: Time)
    ensures HasInboundAfter(log, contact, t) <==> CameInAfter(log, contact, t)
  {
  }

  lemma {:induction false} ReadyWhen(log: seq<Event>, slots: Slots, night: Night, hit: Hit, asOf: int)
    ensures IsReady(log, slots, night, hit, asOf) <==> MayBeSaid(log, slots, night, hit, asOf)
  {
    QuietedWhen(log, night, hit, asOf);
  }

  lemma {:induction false} QuietedWhen(log: seq<Event>, night: Night, hit: Hit, asOf: int)
    ensures InCooldown(log, night, hit, asOf) <==> IsQuieted(log, night, hit, asOf)
  {
    if hit.contact.Some? {
      forall t: Time ensures HasInboundAfter(log, hit.contact.value, t) <==> CameInAfter(log, hit.contact.value, t) {
        CameInWhen(log, hit.contact.value, t);
      }
    }
    if InCooldown(log, night, hit, asOf) {
      var i :| 0 <= i < |log| && Cools(log[i], hit) && log[i].at == LastNudge(log, hit).value;
      assert IsRecentNudge(log[i], night, hit, asOf);
    }
    if IsQuieted(log, night, hit, asOf) {
      var i :| 0 <= i < |log| && IsRecentNudge(log[i], night, hit, asOf)
               && (hit.contact.Some? ==> !CameInAfter(log, hit.contact.value, log[i].at));
      assert Cools(log[i], hit) && log[i].at <= LastNudge(log, hit).value;
      LaterDate(log[i].at, LastNudge(log, hit).value);
    }
  }

  lemma {:induction false} LaterDate(a: Time, b: Time)
    requires a <= b
    ensures DateOf(a) <= DateOf(b) && DateOf(a) == a / 86400
  {
  }

  /** Whose the hit is: the house's, or the owner's of its contact. */
  ghost predicate GoesTo(night: Night, hit: Hit, recipient: Id) {
    if hit.toHouse || hit.contact.None? || hit.contact.value !in night.owners then recipient == 1
    else recipient == night.owners[hit.contact.value]
  }

  // The order in which hits are taken up.

  function OfPriority(priority: int): Hit -> bool {
    (hit: Hit) => hit.priority == priority
  }

  lemma {:induction false} ChosenSnoc(hits: seq<Hit>, hit: Hit, priority: int)
    ensures Filter(hits + [hit], OfPriority(priority))
            == Filter(hits, OfPriority(priority)) + if hit.priority == priority then [hit] else []
  {
    assert (hits + [hit])[..|hits|] == hits;
  }

  /** A hit goes in front of the last one that it outranks. */
  lemma {:induction false} PlacedInFront(sorted: seq<Hit>, hit: Hit)
    requires IsSorted(sorted) && sorted != [] && hit.priority < sorted[|sorted| - 1].priority
    ensures IsSorted(sorted[..|sorted| - 1])
    ensures Placed(sorted, hit) == Placed(sorted[..|sorted| - 1], hit) + [sorted[|sorted| - 1]]
  {
  }

  lemma {:induction false} PlacedInOrder(sorted: seq<Hit>, hit: Hit, priority: int)
    requires IsSorted(sorted)
    ensures Filter(Placed(sorted, hit), OfPriority(priority))
            == Filter(sorted, OfPriority(priority)) + if hit.priority == priority then [hit] else []
  {
    if sorted == [] || sorted[|sorted| - 1].priority <= hit.priority {
      ChosenSnoc(sorted, hit, priority);
    } else {
      var front, last := sorted[..|sorted| - 1], sorted[|sorted| - 1];
      PlacedInFront(sorted, hit);
      PlacedInOrder(front, hit, priority);
      ChosenSnoc(Placed(front, hit), last, priority);
      ChosenSnoc(front, last, priority);
      assert sorted == front + [last];
      Swapped(Filter(front, OfPriority(priority)), hit, last, priority);
    }
  }

  lemma {:induction false} Swapped(chosen: seq<Hit>, hit: Hit, last: Hit, priority: int)
    requires hit.priority < last.priority
    ensures (chosen + if hit.priority == priority then [hit] else []) + (if last.priority == priority then [last] else [])
            == (chosen + if last.priority == priority then [last] else []) + (if hit.priority == priority then [hit] else [])
  {
  }

  /** The least priority number first; hits of one priority in the order they came. */
  lemma {:induction false} TakenInOrder(hits: seq<Hit>, priority: int)
    ensures IsSorted(ByPriority(hits)) && multiset(ByPriority(hits)) == multiset(hits)
    ensures Filter(ByPriority(hits), OfPriority(priority)) == Filter(hits, OfPriority(priority))
  {
    if hits != [] {
      TakenInOrder(hits[..|hits| - 1], priority);
      PlacedInOrder(ByPriority(hits[..|hits| - 1]), hits[|hits| - 1], priority);
    }
  }

  /** How many of the hits are the recipient's. */
  ghost function NumberFor(night: Night, hits: seq<Hit>, recipient: Id): nat {
    if hits == [] then 0 else
    NumberFor(night, hits[..|hits| - 1], recipient) + if GoesTo(night, hits[|hits| - 1], recipient) then 1 else 0
  }

  lemma {:induction false} SentCount(night: Night, hits: seq<Hit>, recipient: Id)
    ensures CountFor(night, Dispatch(night, hits).sent, recipient)
            == if !night.delivering && recipient != 1 then 0
               else if NumberFor(night, hits, recipient) < night.budget then NumberFor(night, hits, recipient) else night.budget
  {
    if hits != [] {
      SentCount(night, hits[..|hits| - 1], recipient);
      CountAppend(night, Dispatch(night, hits[..|hits| - 1]).sent, hits[|hits| - 1], recipient);
    }
  }

  /** What becomes of the i-th hit taken up: it is skipped if it is a partner's and nobody can be reached, sent
      if fewer than the budget of its recipient's came before it, and deferred otherwise. */
  lemma {:induction false} IthIsDispatched(night: Night, hits: seq<Hit>, i: nat, recipient: Id)
    requires i < |hits| && GoesTo(night, hits[i], recipient)
    ensures var before, after := Dispatch(night, hits[..i]), Dispatch(night, hits[..i + 1]);
            if !night.delivering && recipient != 1 then after == before.(skipped := before.skipped + 1)
            else if NumberFor(night, hits[..i], recipient) < night.budget then after == before.(sent := before.sent + [hits[i]])
            else after == before.(deferred := before.deferred + [hits[i]])
  {
    assert hits[..i + 1][..i] == hits[..i];
    SentCount(night, hits[..i], recipient);
  }

  /** The hits that a night takes up are those that may be said, each as often as the rules gave it. */
  lemma {:induction false} ReadyAre(log: seq<Event>, slots: Slots, night: Night, hits: seq<Hit>, asOf: int, hit: Hit)
    ensures multiset(Ready(log, slots, night, hits, asOf))[hit]
            == if MayBeSaid(log, slots, night, hit, asOf) then multiset(hits)[hit] else 0
  {
    if hits != [] {
      var front, last := hits[..|hits| - 1], hits[|hits| - 1];
      assert hits == front + [last];
      ReadyAre(log, slots, night, front, asOf, hit);
      ReadyWhen(log, slots, night, last, asOf);
    }
  }

  // What a night leaves.

  ghost predicate IsSaidTo(sent: seq<Hit>, contact: Id) {
    exists hit :: hit in sent && hit.contact == Some(contact)
  }

  lemma {:induction false} SlotsTaken(slots: Slots, sent: seq<Hit>, asOf: int, contact: Id)
    ensures contact in Taken(slots, sent, asOf) <==> contact in slots || IsSaidTo(sent, contact)
    ensures contact in Taken(slots, sent, asOf) ==>
              Taken(slots, sent, asOf)[contact] == if IsSaidTo(sent, contact) then asOf else slots[contact]
  {
    if sent != [] {
      var front, last := sent[..|sent| - 1], sent[|sent| - 1];
      assert sent == front + [last];
      SlotsTaken(slots, front, asOf, contact);
      if IsSaidTo(front, contact) {
        var hit :| hit in front && hit.contact == Some(contact);
        assert hit in sent;
      }
      if last.contact == Some(contact) {
        assert last in sent;
      }
    }
  }

  /** After a night with this sheet each nudge is on the log, in order, at that instant; a contact has as its
      next action that day if it was nudged, and otherwise what it had if that has not expired. */
  lemma {:induction false} NightLeavesExactly(slots: Slots, night: Night, sent: seq<Hit>, asOf: int, now: Time)
    ensures var more := NudgeEvents(sent, now);
            && |more| == |sent|
            && forall i :: 0 <= i < |sent| ==>
                 more[i] == Event(sent[i].contact, None, System, NudgeSent, now, None,
                                  Payload(rule := Some(sent[i].rule), wave := sent[i].wave))
    ensures var later := Taken(Unexpired(slots, asOf, night.expireDays), sent, asOf);
            forall contact: Id ::
              && (contact in later <==> IsSaidTo(sent, contact) || (contact in slots && asOf - slots[contact] <= night.expireDays))
              && (contact in later ==> later[contact] == if IsSaidTo(sent, contact) then asOf else slots[contact])
  {
    var unexpired := Unexpired(slots, asOf, night.expireDays);
    forall contact: Id
      ensures contact in Taken(unexpired, sent, asOf) <==> IsSaidTo(sent, contact) || contact in unexpired
      ensures contact in Taken(unexpired, sent, asOf) ==>
                Taken(unexpired, sent, asOf)[contact] == if IsSaidTo(sent, contact) then asOf else unexpired[contact]
    {
      SlotsTaken(unexpired, sent, asOf, contact);
    }
  }
}
