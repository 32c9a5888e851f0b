/** The close correlation: a watermarked feed, a double-count guard and a late-phone backfill
    (jobs/close_correlation.py). The feed serves every close recorded after the instant asked for. */
module Closes {
  import opened Types
  import opened Attribution
  import Audience

  const TRAILING_DAYS := 45

  datatype Close = Close(id: string, recordedAt: Time, occurredAt: Time, phone: Option<string>, mailerCode: Option<string>)

  /** One feed entry per customer. */
  ghost predicate IsFeed(feed: seq<Close>) {
    forall i, j :: 0 <= i < j < |feed| ==> feed[i].id != feed[j].id
  }

  function Served(feed: seq<Close>, since: Time): (r: seq<Close>)
    ensures forall c :: c in r <==> c in feed && c.recordedAt > since
    ensures IsFeed(feed) ==> IsFeed(r)
    ensures |r| <= |feed|
  {
    if feed == [] then [] else
    var rest := Served(feed[..|feed| - 1], since);
    var last := feed[|feed| - 1];
    assert feed == feed[..|feed| - 1] + [last];
    if last.recordedAt > since then
      assert IsFeed(feed) ==> forall i :: 0 <= i < |rest| ==> rest[i] in rest && rest[i].id != last.id;
      rest + [last]
    else rest
  }

  /** The earlier of the stored watermark and the trailing window's start. */
  function Since(stored: Option<Time>, now: Time): Time {
    var trailing := now - TRAILING_DAYS * DAY;
    if stored.Some? && stored.value < trailing then stored.value else trailing
  }

  function Newest(stored: Option<Time>, closes: seq<Close>): (r: Option<Time>)
    ensures stored.Some? ==> r.Some? && r.value >= stored.value
    ensures forall c :: c in closes ==> r.Some? && r.value >= c.recordedAt
    ensures r == stored || exists c :: c in closes && r == Some(c.recordedAt)
  {
    if closes == [] then stored else
    var newest := Newest(stored, closes[..|closes| - 1]);
    var last := closes[|closes| - 1];
    assert closes == closes[..|closes| - 1] + [last];
    if newest.None? || last.recordedAt > newest.value then Some(last.recordedAt) else newest
  }

  // One close.

  predicate HasId(e: Event, id: string) {
    e.source == Nmc && e.external == Some(FeedKey(id))
  }

  /** The event a close was ingested as. */
  function Ingested(log: seq<Event>, id: string): (r: Option<nat>)
    ensures r.None? <==> forall i :: 0 <= i < |log| ==> !HasId(log[i], id)
    ensures r.Some? ==> r.value < |log| && HasId(log[r.value], id)
    ensures r.Some? ==> forall i :: 0 <= i < r.value ==> !HasId(log[i], id)
  {
    if log == [] then None
    else if Ingested(log[..|log| - 1], id).Some? then Ingested(log[..|log| - 1], id)
    else if HasId(log[|log| - 1], id) then Some(|log| - 1)
    else None
  }

  function LeadOf(book: Book, c: Close): Option<Id> {
    if ToE164(c.phone).Some? && ToE164(c.phone).value in book.leads then Some(book.leads[ToE164(c.phone).value]) else None
  }

  predicate IsSignup(e: Event, contact: Id) {
    e.contact == Some(contact) && e.kind == SignupCompleted
  }

  predicate HasSignup(log: seq<Event>, contact: Id) {
    exists i :: 0 <= i < |log| && IsSignup(log[i], contact)
  }

  /** A mailer code only if we printed it. */
  function CodeOf(book: Book, c: Close): Option<string> {
    if Present(c.mailerCode).Some? && Audience.Lower(c.mailerCode.value) in book.codes
    then Some(Audience.Lower(c.mailerCode.value)) else None
  }

  function CloseEvent(book: Book, c: Close): Event {
    Event(LeadOf(book, c), None, Nmc, SignupCompleted, c.occurredAt, Some(FeedKey(c.id)),
          Payload(phone := ToE164(c.phone), mailerCode := CodeOf(book, c)))
  }

  /** An ingested orphan whose phone has since arrived. */
  predicate AwaitsPhone(e: Event, c: Close) {
    e.contact.None? && ToE164(c.phone).Some? && Present(e.payload.phone).None?
  }

  datatype Fate = Known | Backfilled | Skipped | New

  function FateOf(book: Book, log: seq<Event>, c: Close): Fate {
    if Ingested(log, c.id).Some? then
      if AwaitsPhone(log[Ingested(log, c.id).value], c) then Backfilled else Known
    else if LeadOf(book, c).Some? && HasSignup(log, LeadOf(book, c).value) then Skipped
    else New
  }

  function CorrelateOne(book: Book, log: seq<Event>, c: Close): (r: seq<Event>)
    ensures |log| <= |r|
  {
    match FateOf(book, log, c)
    case Known => log
    case Skipped => log
    case Backfilled =>
      var i := Ingested(log, c.id).value;
      log[i := log[i].(payload := log[i].payload.(phone := ToE164(c.phone)))]
    case New => log + [CloseEvent(book, c)]
  }

  function CorrelateAll(book: Book, log: seq<Event>, closes: seq<Close>): (r: seq<Event>)
    ensures |log| <= |r|
  {
    if closes == [] then log
    else CorrelateOne(book, CorrelateAll(book, log, closes[..|closes| - 1]), closes[|closes| - 1])
  }

  /** How many closes of a list meet one fate. */
  function Count(book: Book, log: seq<Event>, closes: seq<Close>, fate: Fate): nat {
    if closes == [] then 0 else
    var front := closes[..|closes| - 1];
    Count(book, log, front, fate)
      + if FateOf(book, CorrelateAll(book, log, front), closes[|closes| - 1]) == fate then 1 else 0
  }

  /** How many are ingested without a contact. */
  function CountOrphans(book: Book, log: seq<Event>, closes: seq<Close>): nat {
    if closes == [] then 0 else
    var front, last := closes[..|closes| - 1], closes[|closes| - 1];
    CountOrphans(book, log, front)
      + if FateOf(book, CorrelateAll(book, log, front), last) == New && LeadOf(book, last).None? then 1 else 0
  }

  // One run.

  datatype Report = Report(seen: nat, ingested: nat, skipped: nat, orphaned: nat, backfilled: nat)

  function ReportOf(book: Book, log: seq<Event>, closes: seq<Close>): Report {
    Report(|closes|, Count(book, log, closes, New), Count(book, log, closes, Skipped),
           CountOrphans(book, log, closes), Count(book, log, closes, Backfilled))
  }

  /** The events, the piece statuses and the stored watermark. */
  datatype State = State(facts: Facts, watermark: Option<Time>)

  function Correlate(book: Book, s: State, feed: seq<Close>, now: Time): State {
    var closes := Served(feed, Since(s.watermark, now));
    var after := Facts(CorrelateAll(book, s.facts.log, closes), s.facts.statuses);
    State(if Count(book, s.facts.log, closes, Backfilled) > 0 then Pass(book, None, after) else after,
          Newest(s.watermark, closes))
  }

  function Counted(r: Report, fate: Fate, unmatched: bool): Report {
    match fate
    case Known => r.(seen := r.seen + 1)
    case Backfilled => r.(seen := r.seen + 1, backfilled := r.backfilled + 1)
    case Skipped => r.(seen := r.seen + 1, skipped := r.skipped + 1)
    case New =>
      r.(seen := r.seen + 1, ingested := r.ingested + 1, orphaned := r.orphaned + if unmatched then 1 else 0)
  }

  lemma {:induction false} ReportStep(book: Book, log: seq<Event>, closes: seq<Close>, k: nat)
    requires k < |closes|
    ensures var before := CorrelateAll(book, log, closes[..k]);
            && CorrelateAll(book, log, closes[..k + 1]) == CorrelateOne(book, before, closes[k])
            && ReportOf(book, log, closes[..k + 1])
               == Counted(ReportOf(book, log, closes[..k]), FateOf(book, before, closes[k]), LeadOf(book, closes[k]).None?)
  {
    assert closes[..k + 1][..k] == closes[..k] && closes[..k + 1][k] == closes[k];
  }

  class Job {
    const tables: Ingestion
    var watermark: Option<Time>

    function Value(): State
      reads this, tables
    {
      State(tables.Value(), watermark)
    }

    constructor (tables: Ingestion, watermark: Option<Time>)
      ensures this.tables == tables && this.watermark == watermark
    {
      this.tables, this.watermark := tables, watermark;
    }

    method CorrelateCloses(book: Book, feed: seq<Close>, now: Time)
      returns (r: Report)
      modifies this, tables
      ensures Value() == Correlate(book, old(Value()), feed, now)
      ensures r == ReportOf(book, old(tables.events), Served(feed, Since(old(watermark), now)))
    {
      var closes := Served(feed, Since(watermark, now));
      r := CorrelateServed(book, closes);
      watermark := Newest(watermark, closes);
      if r.backfilled > 0 {
        var _, _ := tables.ResolveOrphans(book, None);
      }
    }

    /** The loop over the feed. */
    method CorrelateServed(book: Book, closes: seq<Close>) returns (r: Report)
      modifies tables
      ensures tables.Value() == Facts(CorrelateAll(book, old(tables.events), closes), old(tables.statuses))
      ensures r == ReportOf(book, old(tables.events), closes)
    {
      ghost var log := tables.events;
      r := Report(0, 0, 0, 0, 0);
      var k := 0;
      while k < |closes|
        invariant 0 <= k <= |closes|
        invariant tables.events == CorrelateAll(book, log, closes[..k]) && tables.statuses == old(tables.statuses)
        invariant r == ReportOf(book, log, closes[..k])
      {
        ReportStep(book, log, closes, k);
        var fate := CorrelateNext(book, closes[k]);
        r := Counted(r, fate, LeadOf(book, closes[k]).None?);
        k := k + 1;
      }
      assert closes[..|closes|] == closes;
    }

    method CorrelateNext(book: Book, c: Close) returns (fate: Fate)
      modifies tables
      ensures tables.events == CorrelateOne(book, old(tables.events), c) && tables.statuses == old(tables.statuses)
      ensures fate == FateOf(book, old(tables.events), c)
    {
      var contact := LeadOf(book, c);
      var existing := Ingested(tables.events, c.id);
      if existing.Some? {
        var i := existing.value;
        if AwaitsPhone(tables.events[i], c) {
          tables.events := tables.events[i := tables.events[i].(payload := tables.events[i].payload.(phone := ToE164(c.phone)))];
          return Backfilled;
        }
        return Known;
      }
      if contact.Some? && HasSignup(tables.events, contact.value) {
        return Skipped;
      }
      tables.events := tables.events + [CloseEvent(book, c)];
      return New;
    }
  }

  // What a run guarantees.

  /** Nothing is left to do for the close: it is ingested and needs no phone, or its lead had signed up. */
  predicate IsSettled(book: Book, log: seq<Event>, c: Close) {
    FateOf(book, log, c) in {Known, Skipped}
  }

  /** The log only grows, attributions stand, and payloads only gain phones. */
  ghost predicate Extends(before: seq<Event>, after: seq<Event>) {
    && |before| <= |after|
    && forall i :: 0 <= i < |before| ==>
         && after[i].kind == before[i].kind && after[i].source == before[i].source && after[i].external == before[i].external
         && (before[i].contact.Some? ==> after[i].contact == before[i].contact)
         && (Present(before[i].payload.phone).Some? ==> after[i].payload.phone == before[i].payload.phone)
  }

  lemma {:induction false} E164IsPresent(raw: Option<string>)
    ensures ToE164(raw).Some? ==> Present(ToE164(raw)).Some?
  {
  }

  lemma {:induction false} CorrelateOneExtends(book: Book, log: seq<Event>, c: Close)
    ensures Extends(log, CorrelateOne(book, log, c))
    ensures IsSettled(book, CorrelateOne(book, log, c), c)
  {
    E164IsPresent(c.phone);
    var after := CorrelateOne(book, log, c);
    match FateOf(book, log, c)
    case New =>
      assert HasId(after[|log|], c.id);
      assert forall i :: 0 <= i < |log| ==> after[i] == log[i];
    case Backfilled =>
      var i := Ingested(log, c.id).value;
      assert HasId(after[i], c.id);
      SameIngested(log, after, c.id, i);
    case _ =>
  }

  lemma {:induction false} SameIngested(log: seq<Event>, after: seq<Event>, id: string, i: nat)
    requires Extends(log, after) && Ingested(log, id) == Some(i)
    ensures Ingested(after, id) == Some(i)
  {
    assert HasId(after[i], id);
    forall j | 0 <= j < i ensures !HasId(after[j], id) {
      assert !HasId(log[j], id);
    }
  }

  lemma {:induction false} SettledStays(book: Book, before: seq<Event>, after: seq<Event>, c: Close)
    requires Extends(before, after) && IsSettled(book, before, c)
    requires Ingested(before, c.id).None? ==> Ingested(after, c.id).None?
    ensures IsSettled(book, after, c)
  {
    if Ingested(before, c.id).Some? {
      SameIngested(before, after, c.id, Ingested(before, c.id).value);
    } else {
      var contact := LeadOf(book, c).value;
      var i :| 0 <= i < |before| && IsSignup(before[i], contact);
      assert IsSignup(after[i], contact);
    }
  }

  lemma {:induction false} OtherIdsUntouched(book: Book, log: seq<Event>, c: Close, id: string)
    requires id != c.id && Ingested(log, id).None?
    ensures Ingested(CorrelateOne(book, log, c), id).None?
  {
    var after := CorrelateOne(book, log, c);
    forall i | 0 <= i < |after| ensures !HasId(after[i], id) {
      if i < |log| {
        assert !HasId(log[i], id);
      }
    }
  }

  lemma {:induction false} ExtendsTransitive(a: seq<Event>, b: seq<Event>, c: seq<Event>)
    requires Extends(a, b) && Extends(b, c)
    ensures Extends(a, c)
  {
  }

  /** After the loop every close it saw is settled: its event is in the log, or its lead has a signup. */
  lemma {:induction false} EveryoneSettled(book: Book, log: seq<Event>, closes: seq<Close>)
    requires IsFeed(closes)
    ensures Extends(log, CorrelateAll(book, log, closes))
    ensures forall k :: 0 <= k < |closes| ==> IsSettled(book, CorrelateAll(book, log, closes), closes[k])
  {
    if closes != [] {
      var front, last := closes[..|closes| - 1], closes[|closes| - 1];
      var before, after := CorrelateAll(book, log, front), CorrelateAll(book, log, closes);
      EveryoneSettled(book, log, front);
      CorrelateOneExtends(book, before, last);
      ExtendsTransitive(log, before, after);
      forall k | 0 <= k < |closes| ensures IsSettled(book, after, closes[k]) {
        if k < |front| {
          assert closes[k] == front[k];
          if Ingested(before, closes[k].id).None? {
            OtherIdsUntouched(book, before, last, closes[k].id);
          }
          SettledStays(book, before, after, closes[k]);
        }
      }
    }
  }

  /** A loop over settled closes changes nothing. */
  lemma {:induction false} SettledIsNothing(book: Book, log: seq<Event>, closes: seq<Close>)
    requires forall k :: 0 <= k < |closes| ==> IsSettled(book, log, closes[k])
    ensures CorrelateAll(book, log, closes) == log && Count(book, log, closes, Backfilled) == 0
  {
    if closes != [] {
      SettledIsNothing(book, log, closes[..|closes| - 1]);
    }
  }

  lemma {:induction false} AttributingExtends(before: seq<Event>, after: seq<Event>)
    requires OnlyAttributes(before, after)
    ensures Extends(before, after)
  {
    forall i | 0 <= i < |before|
      ensures after[i].kind == before[i].kind && after[i].source == before[i].source
              && after[i].external == before[i].external && after[i].payload == before[i].payload
    {
    }
  }

  /** What one run does to the log, orphan pass included: every close it saw ends settled. */
  lemma {:induction false} RunSettles(book: Book, s: State, feed: seq<Close>, now: Time)
    requires IsFeed(feed)
    ensures var after := Correlate(book, s, feed, now);
            && Extends(s.facts.log, after.facts.log)
            && forall c :: c in feed && c.recordedAt > Since(s.watermark, now) ==> IsSettled(book, after.facts.log, c)
  {
    var closes := Served(feed, Since(s.watermark, now));
    var log := CorrelateAll(book, s.facts.log, closes);
    var after := Correlate(book, s, feed, now);
    EveryoneSettled(book, s.facts.log, closes);
    if Count(book, s.facts.log, closes, Backfilled) > 0 {
      HandleAllAttributes(book, Facts(log, s.facts.statuses), Orphans(log, None));
      AttributingExtends(log, after.facts.log);
      ExtendsTransitive(s.facts.log, log, after.facts.log);
      forall c | c in closes ensures IsSettled(book, after.facts.log, c) {
        if Ingested(log, c.id).None? {
          NoneIngestedByPass(log, after.facts.log, c.id);
        }
        SettledStays(book, log, after.facts.log, c);
      }
    }
  }

  lemma {:induction false} NoneIngestedByPass(before: seq<Event>, after: seq<Event>, id: string)
    requires OnlyAttributes(before, after) && Ingested(before, id).None?
    ensures Ingested(after, id).None?
  {
    forall i | 0 <= i < |after| ensures !HasId(after[i], id) {
      assert !HasId(before[i], id);
    }
  }

  /** The run looks at every close of the last forty-five days, and no watermark ever falls. */
  lemma {:induction false} NothingRecentIsMissed(book: Book, s: State, feed: seq<Close>, now: Time, c: Close)
    requires c in feed && c.recordedAt > now - 45 * 24 * 3600
    ensures c in Served(feed, Since(s.watermark, now))
    ensures var after := Correlate(book, s, feed, now);
            && after.watermark.Some? && after.watermark.value >= c.recordedAt
            && (s.watermark.Some? ==> after.watermark.value >= s.watermark.value)
  {
  }

  /** Replaying an unchanged feed, then or at any later time, is a no-op. */
  lemma {:induction false} ReplayIsNothing(book: Book, s: State, feed: seq<Close>, now: Time, later: Time)
    requires IsFeed(feed) && now <= later
    ensures var after := Correlate(book, s, feed, now);
            Correlate(book, after, feed, later) == after
  {
    var after := Correlate(book, s, feed, now);
    RunSettles(book, s, feed, now);
    var again := Served(feed, Since(after.watermark, later));
    LaterSeesNoMore(s, feed, now, later);
    forall k | 0 <= k < |again| ensures IsSettled(book, after.facts.log, again[k]) {
      assert again[k] in again;
    }
    SettledIsNothing(book, after.facts.log, again);
    NewestIsNewest(after.watermark, again);
  }

  lemma {:induction false} LaterSeesNoMore(s: State, feed: seq<Close>, now: Time, later: Time)
    requires now <= later
    ensures var closes := Served(feed, Since(s.watermark, now));
            forall c :: c in Served(feed, Since(Newest(s.watermark, closes), later)) ==> c in closes
  {
    var closes := Served(feed, Since(s.watermark, now));
    var newest := Newest(s.watermark, closes);
    if newest != s.watermark {
      var c :| c in closes && newest == Some(c.recordedAt);
      assert newest.value > Since(s.watermark, now);
    }
  }

  lemma {:induction false} NewestIsNewest(stored: Option<Time>, closes: seq<Close>)
    requires forall c :: c in closes ==> stored.Some? && c.recordedAt <= stored.value
    ensures Newest(stored, closes) == stored
  {
  }

  /** The double-count guard: a signup the loop itself adds to a contact is that contact's first. */
  lemma {:induction false} NeverSecondSignup(book: Book, log: seq<Event>, closes: seq<Close>, i: nat, j: nat, contact: Id)
    requires i < j < |CorrelateAll(book, log, closes)| && |log| <= j
    requires IsSignup(CorrelateAll(book, log, closes)[j], contact)
    ensures !IsSignup(CorrelateAll(book, log, closes)[i], contact)
  {
    if closes != [] {
      var front, last := closes[..|closes| - 1], closes[|closes| - 1];
      var before, after := CorrelateAll(book, log, front), CorrelateAll(book, log, closes);
      CorrelateOneExtends(book, before, last);
      SignupsStand(book, before, last, i, contact);
      if j < |before| {
        SignupsStand(book, before, last, j, contact);
        NeverSecondSignup(book, log, front, i, j, contact);
      }
    }
  }

  lemma {:induction false} SignupsStand(book: Book, log: seq<Event>, c: Close, i: nat, contact: Id)
    requires i < |log|
    ensures IsSignup(CorrelateOne(book, log, c)[i], contact) <==> IsSignup(log[i], contact)
  {
  }

  // A run read off the feed and the log.

  /** The feed is asked for what was recorded after the older of the watermark and 45 days ago. */
  lemma {:induction false} ServedWhen(stored: Option<Time>, feed: seq<Close>, now: Time, c: Close)
    ensures c in Served(feed, Since(stored, now))
            <==> c in feed && (c.recordedAt > now - 45 * 24 * 3600 || (stored.Some? && c.recordedAt > stored.value))
  {
  }

  /** The close's phone, normalised. */
  ghost predicate HasNumber(c: Close, number: string) {
    c.phone.Some? && IsNormalOf(c.phone.value, number)
  }

  ghost predicate IsNumbered(c: Close, phone: Option<string>) {
    match phone
    case Some(number) => HasNumber(c, number)
    case None => forall number :: !HasNumber(c, number)
  }

  lemma {:induction false} NumberedWhen(c: Close, phone: Option<string>)
    ensures IsNumbered(c, phone) <==> phone == ToE164(c.phone)
  {
    forall number ensures ToE164(c.phone) == Some(number) <==> HasNumber(c, number) {
      if c.phone.Some? {
        NormalisesTo(c.phone.value, number);
      }
    }
    if ToE164(c.phone).Some? {
      assert HasNumber(c, ToE164(c.phone).value);
    }
  }

  /** The lead with that number, if one has it. */
  ghost predicate IsLead(book: Book, c: Close, lead: Option<Id>) {
    match lead
    case Some(id) => exists number :: HasNumber(c, number) && number in book.leads && book.leads[number] == id
    case None => forall number :: HasNumber(c, number) ==> number !in book.leads
  }

  lemma {:induction false} LeadWhen(book: Book, c: Close, lead: Option<Id>)
    ensures IsLead(book, c, lead) <==> lead == LeadOf(book, c)
  {
    NumberedWhen(c, ToE164(c.phone));
    forall number ensures HasNumber(c, number) <==> ToE164(c.phone) == Some(number) {
      NumberedWhen(c, Some(number));
    }
  }

  /** The close's mailer code in lower case, if a piece bears it. */
  ghost predicate IsPrinted(book: Book, c: Close, code: Option<string>) {
    var said := c.mailerCode.Some? && c.mailerCode.value != "" && Audience.Lower(c.mailerCode.value) in book.codes;
    code == if said then Some(Audience.Lower(c.mailerCode.value)) else None
  }

  /** The event a close becomes: a signup of the lead with its number, or of nobody, at the instant of the
      close, under the close's id. */
  ghost predicate IsEventOf(book: Book, c: Close, e: Event) {
    && IsLead(book, c, e.contact) && e.piece.None? && e.source == Nmc && e.kind == SignupCompleted && e.at == c.occurredAt
    && e.external == Some(FeedKey(c.id))
    && IsNumbered(c, e.payload.phone) && IsPrinted(book, c, e.payload.mailerCode)
    && e.payload == Payload(phone := e.payload.phone, mailerCode := e.payload.mailerCode)
  }

  lemma {:induction false} EventIsOf(book: Book, c: Close, e: Event)
    ensures IsEventOf(book, c, e) <==> e == CloseEvent(book, c)
  {
    LeadWhen(book, c, e.contact);
    NumberedWhen(c, e.payload.phone);
  }

  /** The i-th event is the first that was ingested for the close. */
  ghost predicate IsFirstFor(log: seq<Event>, c: Close, i: nat) {
    && i < |log| && IsFor(log[i], c)
    && forall j :: 0 <= j < i ==> !IsFor(log[j], c)
  }

  ghost predicate IsFor(e: Event, c: Close) {
    e.source == Nmc && e.external == Some(FeedKey(c.id))
  }

  lemma {:induction false} FirstForWhen(log: seq<Event>, c: Close, i: nat)
    ensures IsFirstFor(log, c, i) <==> Ingested(log, c.id) == Some(i)
  {
    if Ingested(log, c.id).Some? {
      var r := Ingested(log, c.id).value;
      assert HasId(log[r], c.id);
      if IsFirstFor(log, c, i) {
        assert HasId(log[i], c.id);
        assert i <= r;
      }
    }
  }

  ghost predicate HasSignedUp(book: Book, log: seq<Event>, c: Close) {
    exists id: Id, i :: IsLead(book, c, Some(id)) && 0 <= i < |log| && log[i].contact == Some(id) && log[i].kind == SignupCompleted
  }

  /** The event has neither a contact nor a phone. */
  ghost predicate LacksPhone(e: Event) {
    e.contact.None? && (e.payload.phone.None? || e.payload.phone.value == "")
  }

  /** What the close does to the log. */
  ghost predicate IsCorrelated(book: Book, log: seq<Event>, c: Close, after: seq<Event>) {
    if exists i: nat :: IsFirstFor(log, c, i) then
      exists i: nat :: IsFirstFor(log, c, i) && |after| == |log| && (forall j :: 0 <= j < |log| && j != i ==> after[j] == log[j])
                       && IsBackfilled(c, log[i], after[i])
    else if HasSignedUp(book, log, c) then after == log
    else |after| == |log| + 1 && after[..|log|] == log && IsEventOf(book, c, after[|log|])
  }

  /** An orphan without a phone takes the close's number, if it has one; any other event stays. */
  ghost predicate IsBackfilled(c: Close, e: Event, later: Event) {
    if LacksPhone(e) && exists number :: HasNumber(c, number) then
      && later.payload.phone.Some? && HasNumber(c, later.payload.phone.value)
      && later == e.(payload := e.payload.(phone := later.payload.phone))
    else later == e
  }

  lemma {:induction false} CorrelatesByColumns(book: Book, log: seq<Event>, c: Close)
    ensures IsCorrelated(book, log, c, CorrelateOne(book, log, c))
  {
    forall i: nat ensures IsFirstFor(log, c, i) <==> Ingested(log, c.id) == Some(i) {
      FirstForWhen(log, c, i);
    }
    var after := CorrelateOne(book, log, c);
    if Ingested(log, c.id).Some? {
      var i := Ingested(log, c.id).value;
      BackfillsByColumns(c, log[i]);
      assert IsFirstFor(log, c, i) && IsBackfilled(c, log[i], after[i]);
    } else {
      SignedUpWhen(book, log, c);
      EventIsOf(book, c, CloseEvent(book, c));
    }
  }

  lemma {:induction false} SignedUpWhen(book: Book, log: seq<Event>, c: Close)
    ensures HasSignedUp(book, log, c) <==> LeadOf(book, c).Some? && HasSignup(log, LeadOf(book, c).value)
  {
    forall id: Id ensures IsLead(book, c, Some(id)) <==> LeadOf(book, c) == Some(id) {
      LeadWhen(book, c, Some(id));
    }
    if LeadOf(book, c).Some? && HasSignup(log, LeadOf(book, c).value) {
      var i :| 0 <= i < |log| && IsSignup(log[i], LeadOf(book, c).value);
      assert log[i].contact == Some(LeadOf(book, c).value);
    }
  }

  lemma {:induction false} BackfillsByColumns(c: Close, e: Event)
    ensures IsBackfilled(c, e, if AwaitsPhone(e, c) then e.(payload := e.payload.(phone := ToE164(c.phone))) else e)
  {
    forall number ensures HasNumber(c, number) <==> ToE164(c.phone) == Some(number) {
      NumberedWhen(c, Some(number));
    }
  }

  /** The log of a run over some closes: old events keep all but the phone of an orphan that lacked one, which
      can only be that of its own close; each new event is the event of one of the closes. */
  ghost predicate IsRunLog(book: Book, log: seq<Event>, closes: seq<Close>, after: seq<Event>) {
    && |log| <= |after|
    && (forall i :: 0 <= i < |log| ==> KeptOrBackfilled(log[i], closes, after[i]))
    && (forall i :: |log| <= i < |after| ==> exists c :: c in closes && IsEventOf(book, c, after[i]))
  }

  ghost predicate KeptOrBackfilled(e: Event, closes: seq<Close>, later: Event) {
    later == e || exists c :: c in closes && IsFor(e, c) && LacksPhone(e) && later.payload.phone.Some?
                              && HasNumber(c, later.payload.phone.value)
                              && later == e.(payload := e.payload.(phone := later.payload.phone))
  }

  lemma {:induction false} RunLogs(book: Book, log: seq<Event>, closes: seq<Close>)
    requires IsFeed(closes)
    ensures IsRunLog(book, log, closes, CorrelateAll(book, log, closes))
  {
    if closes != [] {
      var front, last := closes[..|closes| - 1], closes[|closes| - 1];
      var before, after := CorrelateAll(book, log, front), CorrelateAll(book, log, closes);
      RunLogs(book, log, front);
      assert closes == front + [last];
      CorrelatesByColumns(book, before, last);
      forall i | 0 <= i < |log| ensures KeptOrBackfilled(log[i], closes, after[i]) {
        EventStays(book, log, front, last, before, after, i);
      }
      forall i | |log| <= i < |after| ensures exists c :: c in closes && IsEventOf(book, c, after[i]) {
        NewEventStays(book, log, front, last, before, after, i);
      }
    }
  }

  lemma {:induction false} EventStays(book: Book, log: seq<Event>, front: seq<Close>, last: Close, before: seq<Event>, after: seq<Event>, i: nat)
    requires IsRunLog(book, log, front, before) && IsCorrelated(book, before, last, after) && i < |log| <= |after|
    ensures KeptOrBackfilled(log[i], front + [last], after[i])
  {
    var closes := front + [last];
    assert forall c :: c in front ==> c in closes;
    assert KeptOrBackfilled(log[i], front, before[i]);
    if after[i] != before[i] {
      assert IsFirstFor(before, last, i) && IsBackfilled(last, before[i], after[i]);
      assert LacksPhone(before[i]) && last in closes;
      if before[i] != log[i] {
        var c :| c in front && IsFor(log[i], c) && LacksPhone(log[i]) && before[i].payload.phone.Some? && HasNumber(c, before[i].payload.phone.value);
        NumberedWhen(c, before[i].payload.phone);
      }
    }
  }

  /** An event the loop added is not touched again: its id is its own close's. */
  lemma {:induction false} NewEventStays(book: Book, log: seq<Event>, front: seq<Close>, last: Close, before: seq<Event>, after: seq<Event>, i: nat)
    requires IsFeed(front + [last])
    requires IsRunLog(book, log, front, before) && IsCorrelated(book, before, last, after) && |log| <= i < |after|
    ensures exists c :: c in front + [last] && IsEventOf(book, c, after[i])
  {
    var closes := front + [last];
    if i < |before| {
      var c :| c in front && IsEventOf(book, c, before[i]);
      var k :| 0 <= k < |front| && front[k] == c;
      assert closes[k].id != closes[|front|].id;
      assert !IsFirstFor(before, last, i);
      assert c in closes && IsEventOf(book, c, after[i]);
    } else {
      assert last in closes && IsEventOf(book, last, after[i]);
    }
  }

  /** Over a whole run the feed's closes leave such a log, and an orphan pass, if one follows, only attributes. */
  lemma {:induction false} RunByColumns(book: Book, s: State, feed: seq<Close>, now: Time) returns (log: seq<Event>)
    requires IsFeed(feed)
    ensures IsRunLog(book, s.facts.log, Served(feed, Since(s.watermark, now)), log)
    ensures OnlyAttributes(log, Correlate(book, s, feed, now).facts.log)
    ensures |log| == |s.facts.log| + Count(book, s.facts.log, Served(feed, Since(s.watermark, now)), New)
  {
    var closes := Served(feed, Since(s.watermark, now));
    log := CorrelateAll(book, s.facts.log, closes);
    RunLogs(book, s.facts.log, closes);
    NewAreCounted(book, s.facts.log, closes);
    HandleAllAttributes(book, Facts(log, s.facts.statuses), Orphans(log, None));
  }

  lemma {:induction false} NewAreCounted(book: Book, log: seq<Event>, closes: seq<Close>)
    ensures |CorrelateAll(book, log, closes)| == |log| + Count(book, log, closes, New)
  {
    if closes != [] {
      NewAreCounted(book, log, closes[..|closes| - 1]);
    }
  }
}
