/** Whose event is it: the precedence chain and the pass over unattributed events
    (resolution/matcher.py, service/ingestion.py). */
module Attribution {
  import opened Types
  import Waves

  /** A piece as its mailer code finds it. */
  datatype Slip = Slip(piece: Id, contact: Id)

  /** The lookups a pass does not change: pieces by code, contacts by phone, and the same without seeds. */
  datatype Book = Book(codes: map<string, Slip>, phones: map<string, Id>, leads: map<string, Id>)

  datatype Match = Match(contact: Id, piece: Option<Id>)

  /** What a pass changes: the events' attribution and the pieces' delivery status. */
  datatype Facts = Facts(log: seq<Event>, statuses: map<Id, Waves.PieceStatus>)

  // Phone numbers (domain/phone.py).

  function Digits(s: string): (r: string)
    ensures forall i :: 0 <= i < |r| ==> '0' <= r[i] <= '9'
  {
    if s == "" then "" else (if '0' <= s[0] <= '9' then [s[0]] else "") + Digits(s[1..])
  }

  function ToE164(raw: Option<string>): Option<string> {
    if raw.None? then None else
    var digits := Digits(raw.value);
    var national := if |digits| == 11 && digits[0] == '1' then digits[1..] else digits;
    if |national| == 10 then Some("+1" + national) else None
  }

  lemma {:induction false} DigitsOfDigits(s: string)
    requires forall i :: 0 <= i < |s| ==> '0' <= s[i] <= '9'
    ensures Digits(s) == s
  {
    if s != "" {
      assert s == [s[0]] + s[1..];
      DigitsOfDigits(s[1..]);
    }
  }

  /** Normalising a normalised number gives it back. */
  lemma {:induction false} NormalIsFixed(raw: Option<string>)
    ensures ToE164(raw).Some? ==> ToE164(ToE164(raw)) == ToE164(raw)
  {
    if ToE164(raw).Some? {
      var e164 := ToE164(raw).value;
      var national := e164[2..];
      assert e164[1..] == ['1'] + national;
      DigitsOfDigits(['1'] + national);
      assert (['1'] + national)[1..] == national;
      assert Digits(e164) == ['1'] + national;
    }
  }

  // The precedence chain.

  function Present(key: Option<string>): Option<string> {
    if key == Some("") then None else key
  }

  function SlipOf(book: Book, e: Event): Option<Slip> {
    var code := Present(e.payload.mailerCode);
    if code.Some? && code.value in book.codes then Some(book.codes[code.value]) else None
  }

  function ThreadOf(e: Event): Option<string> {
    Present(e.payload.thread)
  }

  function PhoneOf(e: Event): Option<string> {
    if Present(e.payload.phoneE164).Some? then e.payload.phoneE164 else ToE164(e.payload.phone)
  }

  function ContactByPhone(book: Book, e: Event): Option<Id> {
    if PhoneOf(e).Some? && PhoneOf(e).value in book.phones then Some(book.phones[PhoneOf(e).value]) else None
  }

  predicate SpeaksFor(e: Event, thread: string) {
    e.contact.Some? && ThreadOf(e) == Some(thread)
  }

  /** The earliest attributed event of a thread; the lowest id among simultaneous ones. */
  function EarliestOn(log: seq<Event>, thread: string): (r: Option<nat>)
    ensures r.None? <==> forall i :: 0 <= i < |log| ==> !SpeaksFor(log[i], thread)
    ensures r.Some? ==> r.value < |log| && SpeaksFor(log[r.value], thread)
    ensures r.Some? ==> forall i :: 0 <= i < |log| && SpeaksFor(log[i], thread) ==>
              log[r.value].at < log[i].at || (log[r.value].at == log[i].at && r.value <= i)
  {
    if log == [] then None else
    var best := EarliestOn(log[..|log| - 1], thread);
    var last := log[|log| - 1];
    if SpeaksFor(last, thread) && (best.None? || last.at < log[best.value].at) then Some(|log| - 1) else best
  }

  function ContactByThread(log: seq<Event>, e: Event): Option<Id> {
    if ThreadOf(e).Some? && EarliestOn(log, ThreadOf(e).value).Some?
    then log[EarliestOn(log, ThreadOf(e).value).value].contact else None
  }

  /** Code, then thread, then phone; a key that finds nothing falls through to the next. */
  function Resolve(book: Book, log: seq<Event>, e: Event): Option<Match> {
    if SlipOf(book, e).Some? then Some(Match(SlipOf(book, e).value.contact, Some(SlipOf(book, e).value.piece)))
    else if ContactByThread(log, e).Some? then Some(Match(ContactByThread(log, e).value, None))
    else if ContactByPhone(book, e).Some? then Some(Match(ContactByPhone(book, e).value, None))
    else None
  }

  // One pass.

  predicate IsOrphan(e: Event, since: Option<Time>) {
    e.contact.None? && (since.None? || e.at >= since.value)
  }

  predicate Within(rows: seq<nat>, log: seq<Event>) {
    forall k :: 0 <= k < |rows| ==> rows[k] < |log|
  }

  /** Ids of unattributed events, ascending. */
  predicate AreOrphans(rows: seq<nat>, log: seq<Event>) {
    && Within(rows, log)
    && (forall k :: 0 <= k < |rows| ==> log[rows[k]].contact.None?)
    && (forall j, k :: 0 <= j < k < |rows| ==> rows[j] < rows[k])
  }

  /** The ids of the orphans a pass takes up. */
  function Orphans(log: seq<Event>, since: Option<Time>): (r: seq<nat>)
    ensures AreOrphans(r, log)
    ensures forall i: nat :: i in r <==> i < |log| && IsOrphan(log[i], since)
  {
    if log == [] then [] else
    var rest := Orphans(log[..|log| - 1], since);
    assert forall k :: 0 <= k < |rest| ==> rest[k] < |log| - 1;
    if IsOrphan(log[|log| - 1], since) then rest + [|log| - 1] else rest
  }

  function StatusAfter(status: Waves.PieceStatus, kind: EventType): Waves.PieceStatus {
    if kind == PieceReturned then Waves.Returned
    else if kind == PieceDelivered && status != Waves.Returned then Waves.Delivered
    else status
  }

  function Attributed(e: Event, m: Match): Event {
    e.(contact := Some(m.contact), piece := if m.piece.Some? then m.piece else e.piece)
  }

  /** What handling one row writes. */
  function Handle(book: Book, s: Facts, i: nat): (r: Facts)
    requires i < |s.log|
    ensures |r.log| == |s.log|
  {
    match Resolve(book, s.log, s.log[i])
    case None => s
    case Some(m) =>
      Facts(s.log[i := Attributed(s.log[i], m)],
            if m.piece.Some? && m.piece.value in s.statuses
            then s.statuses[m.piece.value := StatusAfter(s.statuses[m.piece.value], s.log[i].kind)] else s.statuses)
  }

  function HandleAll(book: Book, s: Facts, rows: seq<nat>): (r: Facts)
    requires Within(rows, s.log)
    ensures |r.log| == |s.log|
  {
    if rows == [] then s else Handle(book, HandleAll(book, s, rows[..|rows| - 1]), rows[|rows| - 1])
  }

  function Pass(book: Book, since: Option<Time>, s: Facts): (r: Facts)
    ensures |r.log| == |s.log|
  {
    HandleAll(book, s, Orphans(s.log, since))
  }

  /** Each of these rows was given this contact. */
  ghost predicate AreMatched(log: seq<Event>, rows: seq<nat>, matched: seq<(nat, Id)>) {
    forall k :: 0 <= k < |matched| ==> matched[k].0 in rows && matched[k].0 < |log| && log[matched[k].0].contact == Some(matched[k].1)
  }

  /** Each of these rows has no contact still. */
  ghost predicate AreLeft(log: seq<Event>, rows: seq<nat>, left: seq<nat>) {
    forall k :: 0 <= k < |left| ==> left[k] in rows && left[k] < |log| && log[left[k]].contact.None?
  }

  /** The tables a pass works on. */
  class Ingestion {
    var events: seq<Event>
    var statuses: map<Id, Waves.PieceStatus>

    function Value(): Facts
      reads this
    {
      Facts(events, statuses)
    }

    constructor (s: Facts)
      ensures Value() == s
    {
      events, statuses := s.log, s.statuses;
    }

    /** The verb: every orphan once, in id order, each seeing what the ones before it became. */
    method ResolveOrphans(book: Book, since: Option<Time>) returns (matched: seq<(nat, Id)>, orphaned: seq<nat>)
      modifies this
      ensures Value() == Pass(book, since, old(Value()))
      ensures |matched| + |orphaned| == |Orphans(old(events), since)|
      ensures AreMatched(events, Orphans(old(events), since), matched) && AreLeft(events, Orphans(old(events), since), orphaned)
    {
      ghost var s := Value();
      var rows := Orphans(events, since);
      matched, orphaned := [], [];
      var k := 0;
      while k < |rows|
        invariant 0 <= k <= |rows| && |matched| + |orphaned| == k
        invariant Value() == HandleAll(book, s, rows[..k])
        invariant AreMatched(events, rows[..k], matched) && AreLeft(events, rows[..k], orphaned)
      {
        matched, orphaned := ResolveNext(book, s, rows, k, matched, orphaned);
        k := k + 1;
      }
      assert rows[..|rows|] == rows;
    }

    method ResolveNext(book: Book, ghost s: Facts, rows: seq<nat>, k: nat, matched: seq<(nat, Id)>, orphaned: seq<nat>)
      returns (matched': seq<(nat, Id)>, orphaned': seq<nat>)
      requires AreOrphans(rows, s.log) && k < |rows| && Value() == HandleAll(book, s, rows[..k])
      requires AreMatched(events, rows[..k], matched) && AreLeft(events, rows[..k], orphaned)
      modifies this
      ensures Value() == HandleAll(book, s, rows[..k + 1])
      ensures AreMatched(events, rows[..k + 1], matched') && AreLeft(events, rows[..k + 1], orphaned')
      ensures |matched'| + |orphaned'| == |matched| + |orphaned| + 1
    {
      assert rows[..k + 1][..k] == rows[..k] && rows[..k + 1] == rows[..k] + [rows[k]];
      LeftUntilHandled(book, s, rows[..k], rows[k]);
      assert rows[k] !in rows[..k];
      var found := ResolveRow(book, rows[k]);
      matched', orphaned' := matched, orphaned;
      if found.None? {
        orphaned' := orphaned + [rows[k]];
      } else {
        matched' := matched + [(rows[k], found.value.contact)];
      }
    }

    method ResolveRow(book: Book, i: nat) returns (found: Option<Match>)
      requires i < |events|
      modifies this
      ensures Value() == Handle(book, old(Value()), i)
      ensures found == Resolve(book, old(events), old(events)[i])
    {
      var kind := events[i].kind;
      found := Resolve(book, events, events[i]);
      if found.Some? {
        events := events[i := Attributed(events[i], found.value)];
        if found.value.piece.Some? && found.value.piece.value in statuses {
          var piece := found.value.piece.value;
          statuses := statuses[piece := StatusAfter(statuses[piece], kind)];
        }
      }
    }
  }

  // What a pass does and does not change.

  /** A row is as it was until its turn. */
  lemma {:induction false} LeftUntilHandled(book: Book, s: Facts, rows: seq<nat>, i: nat)
    requires Within(rows, s.log)
    requires i !in rows && i < |s.log|
    ensures HandleAll(book, s, rows).log[i] == s.log[i]
  {
    if rows != [] {
      assert rows == rows[..|rows| - 1] + [rows[|rows| - 1]];
      LeftUntilHandled(book, s, rows[..|rows| - 1], i);
    }
  }

  /** Handling changes nothing of an event but its contact and piece, and never an attribution. */
  ghost predicate OnlyAttributes(before: seq<Event>, after: seq<Event>) {
    && |after| == |before|
    && forall i :: 0 <= i < |before| ==>
         && after[i] == before[i].(contact := after[i].contact, piece := after[i].piece)
         && (before[i].contact.Some? ==> after[i] == before[i])
  }

  lemma {:induction false} HandleAllAttributes(book: Book, s: Facts, rows: seq<nat>)
    requires AreOrphans(rows, s.log)
    ensures OnlyAttributes(s.log, HandleAll(book, s, rows).log)
  {
    if rows != [] {
      var front := rows[..|rows| - 1];
      assert rows == front + [rows[|rows| - 1]];
      HandleAllAttributes(book, s, front);
      LeftUntilHandled(book, s, front, rows[|rows| - 1]);
    }
  }

  /** Matched by its own keys, whatever is known of its thread. */
  predicate IsDirect(book: Book, e: Event) {
    SlipOf(book, e).Some? || ContactByPhone(book, e).Some?
  }

  predicate IsKnown(log: seq<Event>, thread: Option<string>) {
    thread.Some? && exists i :: 0 <= i < |log| && SpeaksFor(log[i], thread.value)
  }

  lemma {:induction false} ResolvesWhen(book: Book, log: seq<Event>, e: Event)
    ensures Resolve(book, log, e).Some? <==> IsDirect(book, e) || IsKnown(log, ThreadOf(e))
  {
  }

  /** Some row of the list is matched by its own keys and on this thread. */
  predicate IsIntroduced(book: Book, log: seq<Event>, rows: seq<nat>, thread: Option<string>)
    requires Within(rows, log)
  {
    thread.Some? && exists k :: 0 <= k < |rows| && IsDirect(book, log[rows[k]]) && ThreadOf(log[rows[k]]) == thread
  }

  lemma {:induction false} HandleKnown(book: Book, s: Facts, i: nat, thread: Option<string>)
    requires i < |s.log| && s.log[i].contact.None?
    ensures IsKnown(Handle(book, s, i).log, thread) <==>
            IsKnown(s.log, thread) || (thread.Some? && IsDirect(book, s.log[i]) && ThreadOf(s.log[i]) == thread)
  {
    ResolvesWhen(book, s.log, s.log[i]);
    var after := Handle(book, s, i).log;
    if thread.Some? {
      if IsKnown(s.log, thread) {
        var j :| 0 <= j < |s.log| && SpeaksFor(s.log[j], thread.value);
        assert SpeaksFor(after[j], thread.value);
      }
      if Resolve(book, s.log, s.log[i]).Some? && ThreadOf(s.log[i]) == thread {
        assert SpeaksFor(after[i], thread.value);
      }
    }
  }

  /** The threads known after handling some rows: those known before, and those that a row with a match
      of its own introduced. A row matched by its thread introduces nothing. */
  lemma {:induction false} KnownAfter(book: Book, s: Facts, rows: seq<nat>, thread: Option<string>)
    requires AreOrphans(rows, s.log)
    ensures IsKnown(HandleAll(book, s, rows).log, thread) <==>
            IsKnown(s.log, thread) || IsIntroduced(book, s.log, rows, thread)
  {
    if rows != [] {
      var front, last := rows[..|rows| - 1], rows[|rows| - 1];
      assert rows == front + [last];
      KnownAfter(book, s, front, thread);
      LeftUntilHandled(book, s, front, last);
      HandleKnown(book, HandleAll(book, s, front), last, thread);
    }
  }

  /** Exactly when a pass attributes its k-th row. */
  lemma {:induction false} AttributedWhen(book: Book, s: Facts, rows: seq<nat>, k: nat)
    requires AreOrphans(rows, s.log)
    requires k < |rows|
    ensures HandleAll(book, s, rows).log[rows[k]].contact.Some? <==>
            || IsDirect(book, s.log[rows[k]])
            || IsKnown(s.log, ThreadOf(s.log[rows[k]]))
            || IsIntroduced(book, s.log, rows[..k], ThreadOf(s.log[rows[k]]))
  {
    var front, last := rows[..|rows| - 1], rows[|rows| - 1];
    assert rows == front + [last];
    if k == |rows| - 1 {
      LeftUntilHandled(book, s, front, last);
      KnownAfter(book, s, front, ThreadOf(s.log[last]));
      ResolvesWhen(book, HandleAll(book, s, front).log, s.log[last]);
    } else {
      AttributedWhen(book, s, front, k);
      assert front[..k] == rows[..k];
      assert front[k] != last;
    }
  }

  // The fixpoint.

  /** The orphan will never be attributed: no match of its own, and its thread is unknown. */
  predicate IsHopeless(book: Book, log: seq<Event>, e: Event) {
    !IsDirect(book, e) && !IsKnown(log, ThreadOf(e))
  }

  lemma {:induction false} HopelessAreLeft(book: Book, s: Facts, rows: seq<nat>)
    requires Within(rows, s.log) && forall k :: 0 <= k < |rows| ==> IsHopeless(book, s.log, s.log[rows[k]])
    ensures HandleAll(book, s, rows) == s
  {
    if rows != [] {
      assert rows == rows[..|rows| - 1] + [rows[|rows| - 1]];
      HopelessAreLeft(book, s, rows[..|rows| - 1]);
      ResolvesWhen(book, s.log, s.log[rows[|rows| - 1]]);
    }
  }

  /** Another pass would change nothing exactly when every orphan left is hopeless. */
  lemma {:induction false} IsFixpointWhen(book: Book, since: Option<Time>, s: Facts)
    ensures Pass(book, since, s) == s <==>
            forall i :: 0 <= i < |s.log| && IsOrphan(s.log[i], since) ==> IsHopeless(book, s.log, s.log[i])
  {
    var rows := Orphans(s.log, since);
    if forall i :: 0 <= i < |s.log| && IsOrphan(s.log[i], since) ==> IsHopeless(book, s.log, s.log[i]) {
      HopelessAreLeft(book, s, rows);
    } else {
      var i :| 0 <= i < |s.log| && IsOrphan(s.log[i], since) && !IsHopeless(book, s.log, s.log[i]);
      var k :| 0 <= k < |rows| && rows[k] == i;
      AttributedWhen(book, s, rows, k);
    }
  }

  /** No pass re-attributes an event, and a pass that matches anything leaves fewer orphans. */
  lemma {:induction false} NeverReattributed(book: Book, since: Option<Time>, s: Facts)
    ensures OnlyAttributes(s.log, Pass(book, since, s).log)
    ensures forall i: nat :: i in Orphans(Pass(book, since, s).log, since) ==> i in Orphans(s.log, since)
    ensures Pass(book, since, s).log != s.log ==>
              exists i: nat :: i in Orphans(s.log, since) && i !in Orphans(Pass(book, since, s).log, since)
  {
    var rows := Orphans(s.log, since);
    HandleAllAttributes(book, s, rows);
    var after := Pass(book, since, s).log;
    if after != s.log {
      var i :| 0 <= i < |s.log| && after[i] != s.log[i];
      if i !in rows {
        LeftUntilHandled(book, s, rows, i);
      }
      var k :| 0 <= k < |rows| && rows[k] == i;
      ChangedIsAttributed(book, s, rows, i);
    }
  }

  lemma {:induction false} ChangedIsAttributed(book: Book, s: Facts, rows: seq<nat>, i: nat)
    requires AreOrphans(rows, s.log)
    requires i < |s.log| && HandleAll(book, s, rows).log[i] != s.log[i]
    ensures HandleAll(book, s, rows).log[i].contact.Some?
  {
    if rows != [] {
      var front, last := rows[..|rows| - 1], rows[|rows| - 1];
      assert rows == front + [last];
      LeftUntilHandled(book, s, front, last);
      if HandleAll(book, s, front).log[i] != s.log[i] {
        ChangedIsAttributed(book, s, front, i);
      }
    }
  }

  lemma {:induction false} OnlyAttributesKeepsKeys(book: Book, before: seq<Event>, after: seq<Event>, i: nat)
    requires OnlyAttributes(before, after) && i < |before|
    ensures ThreadOf(after[i]) == ThreadOf(before[i]) && IsDirect(book, after[i]) == IsDirect(book, before[i])
    ensures after[i].at == before[i].at
  {
  }

  /** After one pass no orphan has a match of its own. */
  lemma {:induction false} DirectGoFirst(book: Book, since: Option<Time>, s: Facts, i: nat)
    requires i < |s.log| && IsOrphan(Pass(book, since, s).log[i], since)
    ensures !IsDirect(book, s.log[i]) && IsOrphan(s.log[i], since)
  {
    var rows := Orphans(s.log, since);
    HandleAllAttributes(book, s, rows);
    assert i in rows;
    var k :| 0 <= k < |rows| && rows[k] == i;
    AttributedWhen(book, s, rows, k);
  }

  /** Two passes always reach the fixpoint, whatever the cut-off: the first attributes every orphan with
      a match of its own, and so makes known every thread there will ever be; the second collects the
      rest. */
  lemma {:induction false} TwoPassesSuffice(book: Book, since: Option<Time>, s: Facts)
    ensures var twice := Pass(book, since, Pass(book, since, s));
            Pass(book, since, twice) == twice
  {
    var once := Pass(book, since, s);
    var twice := Pass(book, since, once);
    var rows := Orphans(once.log, since);
    HandleAllAttributes(book, s, Orphans(s.log, since));
    HandleAllAttributes(book, once, rows);
    forall i | 0 <= i < |twice.log| && IsOrphan(twice.log[i], since) ensures IsHopeless(book, twice.log, twice.log[i]) {
      OnlyAttributesKeepsKeys(book, once.log, twice.log, i);
      assert i in rows;
      var k :| 0 <= k < |rows| && rows[k] == i;
      AttributedWhen(book, once, rows, k);
      KnownAfter(book, once, rows, ThreadOf(once.log[i]));
      NoneIntroduced(book, since, s, ThreadOf(once.log[i]));
    }
    IsFixpointWhen(book, since, twice);
  }

  lemma {:induction false} NoneIntroduced(book: Book, since: Option<Time>, s: Facts, thread: Option<string>)
    ensures !IsIntroduced(book, Pass(book, since, s).log, Orphans(Pass(book, since, s).log, since), thread)
  {
    var once := Pass(book, since, s);
    HandleAllAttributes(book, s, Orphans(s.log, since));
    var rows := Orphans(once.log, since);
    forall k | 0 <= k < |rows| ensures !IsDirect(book, once.log[rows[k]]) {
      assert rows[k] in rows;
      DirectGoFirst(book, since, s, rows[k]);
      OnlyAttributesKeepsKeys(book, s.log, once.log, rows[k]);
    }
  }

  /** The orphan is on a thread that a later orphan introduces, and nothing before it does. */
  predicate IsLate(book: Book, since: Option<Time>, log: seq<Event>, k: nat)
    requires k < |Orphans(log, since)|
  {
    var rows := Orphans(log, since);
    var e := log[rows[k]];
    && !IsDirect(book, e) && !IsKnown(log, ThreadOf(e))
    && !IsIntroduced(book, log, rows[..k], ThreadOf(e))
    && IsIntroduced(book, log, rows, ThreadOf(e))
  }

  /** One pass reaches the fixpoint if and only if no orphan comes before the event that introduces its
      thread. */
  lemma {:induction false} OnePassSufficesWhen(book: Book, since: Option<Time>, s: Facts)
    ensures Pass(book, since, Pass(book, since, s)) == Pass(book, since, s) <==>
            forall k :: 0 <= k < |Orphans(s.log, since)| ==> !IsLate(book, since, s.log, k)
  {
    var rows := Orphans(s.log, since);
    var once := Pass(book, since, s);
    HandleAllAttributes(book, s, rows);
    IsFixpointWhen(book, since, once);
    forall k | 0 <= k < |rows|
      ensures IsLate(book, since, s.log, k) <==>
              IsOrphan(once.log[rows[k]], since) && !IsHopeless(book, once.log, once.log[rows[k]])
    {
      AttributedWhen(book, s, rows, k);
      assert rows[k] in rows;
      OnlyAttributesKeepsKeys(book, s.log, once.log, rows[k]);
      KnownAfter(book, s, rows, ThreadOf(s.log[rows[k]]));
    }
    forall i | 0 <= i < |once.log| && IsOrphan(once.log[i], since) ensures i in rows {
    }
  }

  /** Two orphans of which one pass leaves the first: it is on the thread the second introduces. */
  lemma {:induction false} OnePassMayNotSuffice()
    ensures var book := Book(map[], map["+18055550100" := 7], map[]);
            var first := Event(None, None, Posthog, SmsInbound, 0, None, Payload(thread := Some("t")));
            var second := first.(payload := Payload(thread := Some("t"), phoneE164 := Some("+18055550100")));
            var s := Facts([first, second], map[]);
            Pass(book, None, Pass(book, None, s)) != Pass(book, None, s)
  {
    var book := Book(map[], map["+18055550100" := 7], map[]);
    var first := Event(None, None, Posthog, SmsInbound, 0, None, Payload(thread := Some("t")));
    var second := first.(payload := Payload(thread := Some("t"), phoneE164 := Some("+18055550100")));
    var log := [first, second];
    TwoOrphans(first, second);
    assert IsLate(book, None, log, 0) by {
      assert IsIntroduced(book, log, [0, 1], Some("t")) by {
        assert IsDirect(book, log[[0, 1][1]]);
      }
    }
    OnePassSufficesWhen(book, None, Facts(log, map[]));
  }

  lemma {:induction false} TwoOrphans(first: Event, second: Event)
    requires first.contact.None? && second.contact.None?
    ensures Orphans([first, second], None) == [0, 1]
  {
    assert [first, second][..1] == [first] && [first][..0] == [];
    assert Orphans([first], None) == [0];
  }

  // To whom, by payload and log.

  /** The mailer code of the event is one on file. */
  ghost predicate HasCode(book: Book, e: Event) {
    e.payload.mailerCode.Some? && e.payload.mailerCode.value != "" && e.payload.mailerCode.value in book.codes
  }

  /** The j-th event is the first to say whose the conversation is: of the attributed events on the thread it
      has the earliest instant, and among those the lowest id. */
  ghost predicate IsFirstOn(log: seq<Event>, thread: Option<string>, j: nat) {
    && j < |log| && IsOnThread(log[j], thread)
    && forall i :: 0 <= i < |log| && IsOnThread(log[i], thread) ==> log[j].at < log[i].at || (log[j].at == log[i].at && j <= i)
  }

  ghost predicate IsOnThread(e: Event, thread: Option<string>) {
    thread.Some? && thread.value != "" && e.contact.Some? && e.payload.thread == thread
  }

  /** The text's digits, in order. */
  ghost predicate AreDigitsOf(raw: string, digits: string) {
    if raw == "" then digits == ""
    else if raw[0] in "0123456789" then digits != "" && digits[0] == raw[0] && AreDigitsOf(raw[1..], digits[1..])
    else AreDigitsOf(raw[1..], digits)
  }

  /** Ten digits, or eleven with a 1 in front, behind +1. */
  ghost predicate IsNormalOf(raw: string, number: string) {
    exists digits :: AreDigitsOf(raw, digits) && (if |digits| == 11 then digits[0] == '1' && number == "+" + digits
                                                  else |digits| == 10 && number == "+1" + digits)
  }

  /** The number the event came from: the normalised one it carries, or else the raw one's. */
  ghost predicate IsFrom(e: Event, number: string) {
    if e.payload.phoneE164.Some? && e.payload.phoneE164.value != "" then number == e.payload.phoneE164.value
    else e.payload.phone.Some? && IsNormalOf(e.payload.phone.value, number)
  }

  /** What the event becomes: the code's contact and piece; else the contact of the first on its thread; else
      its number's contact; else it stays as it was. */
  ghost predicate IsGiven(book: Book, log: seq<Event>, e: Event, after: Event) {
    if HasCode(book, e) then
      var slip := book.codes[e.payload.mailerCode.value];
      after == e.(contact := Some(slip.contact), piece := Some(slip.piece))
    else if exists j: nat :: IsFirstOn(log, e.payload.thread, j) then
      exists j: nat :: IsFirstOn(log, e.payload.thread, j) && after == e.(contact := log[j].contact)
    else if exists number :: IsFrom(e, number) && number in book.phones then
      exists number :: IsFrom(e, number) && number in book.phones && after == e.(contact := Some(book.phones[number]))
    else after == e
  }

  lemma {:induction false} DigitsAre(raw: string, digits: string)
    ensures AreDigitsOf(raw, digits) <==> digits == Digits(raw)
  {
    if raw != "" {
      DigitCharacters(raw[0]);
      if '0' <= raw[0] <= '9' {
        if digits != "" {
          DigitsAre(raw[1..], digits[1..]);
          assert digits == [digits[0]] + digits[1..];
          assert Digits(raw)[1..] == Digits(raw[1..]);
        }
      } else {
        DigitsAre(raw[1..], digits);
      }
    }
  }

  lemma {:induction false} DigitCharacters(c: char)
    ensures c in "0123456789" <==> '0' <= c <= '9'
  {
    var digits := "0123456789";
    if '0' <= c <= '9' {
      assert digits[c as int - '0' as int] == c;
    }
  }

  lemma {:induction false} NormalisesTo(raw: string, number: string)
    ensures ToE164(Some(raw)) == Some(number) <==> IsNormalOf(raw, number)
  {
    forall digits ensures AreDigitsOf(raw, digits) <==> digits == Digits(raw) {
      DigitsAre(raw, digits);
    }
    var digits := Digits(raw);
    assert |digits| == 11 && digits[0] == '1' ==> digits == ['1'] + digits[1..] && "+1" + digits[1..] == "+" + digits;
  }

  lemma {:induction false} FromWhen(e: Event, number: string)
    ensures PhoneOf(e) == Some(number) <==> IsFrom(e, number)
  {
    if e.payload.phone.Some? {
      NormalisesTo(e.payload.phone.value, number);
    }
  }

  lemma {:induction false} FirstOnWhen(log: seq<Event>, e: Event, j: nat)
    ensures IsFirstOn(log, e.payload.thread, j) <==> ThreadOf(e).Some? && EarliestOn(log, ThreadOf(e).value) == Some(j)
  {
    if ThreadOf(e).Some? {
      var thread := ThreadOf(e).value;
      assert forall i :: 0 <= i < |log| ==> (SpeaksFor(log[i], thread) <==> IsOnThread(log[i], e.payload.thread));
    }
  }

  /** Handling gives an orphan to the one the chain names, and touches no other event. */
  lemma {:induction false} HandledIsGiven(book: Book, s: Facts, i: nat)
    requires i < |s.log|
    ensures IsGiven(book, s.log, s.log[i], Handle(book, s, i).log[i])
    ensures forall j :: 0 <= j < |s.log| && j != i ==> Handle(book, s, i).log[j] == s.log[j]
  {
    var e := s.log[i];
    forall j: nat ensures IsFirstOn(s.log, e.payload.thread, j) <==> ThreadOf(e).Some? && EarliestOn(s.log, ThreadOf(e).value) == Some(j) {
      FirstOnWhen(s.log, e, j);
    }
    forall number ensures PhoneOf(e) == Some(number) <==> IsFrom(e, number) {
      FromWhen(e, number);
    }
    GivenByResolve(book, s.log, e);
  }

  lemma {:induction false} GivenByResolve(book: Book, log: seq<Event>, e: Event)
    requires forall j: nat :: IsFirstOn(log, e.payload.thread, j) <==> ThreadOf(e).Some? && EarliestOn(log, ThreadOf(e).value) == Some(j)
    requires forall number :: PhoneOf(e) == Some(number) <==> IsFrom(e, number)
    ensures IsGiven(book, log, e, match Resolve(book, log, e) case None => e case Some(m) => Attributed(e, m))
  {
    var after := match Resolve(book, log, e) case None => e case Some(m) => Attributed(e, m);
    if HasCode(book, e) {
    } else if ContactByThread(log, e).Some? {
      var j := EarliestOn(log, ThreadOf(e).value).value;
      assert IsFirstOn(log, e.payload.thread, j) && after == e.(contact := log[j].contact);
    } else {
      assert forall j: nat :: !IsFirstOn(log, e.payload.thread, j);
      if ContactByPhone(book, e).Some? {
        assert IsFrom(e, PhoneOf(e).value) && PhoneOf(e).value in book.phones;
      }
    }
  }

  /** After a pass every orphan it took up is what the chain gives it on the log as it stood at its turn: the
      events before it as the pass left them, the rest as they were. No other event changes. */
  lemma {:induction false} PassGives(book: Book, since: Option<Time>, s: Facts, i: nat)
    requires i < |s.log|
    ensures var after := Pass(book, since, s).log;
            if s.log[i].contact.None? && (since.Some? ==> since.value <= s.log[i].at)
            then IsGiven(book, after[..i] + s.log[i..], s.log[i], after[i])
            else after[i] == s.log[i]
  {
    var rows := Orphans(s.log, since);
    if i in rows {
      var k :| 0 <= k < |rows| && rows[k] == i;
      var front := rows[..k];
      assert Within(front, s.log);
      assert i !in front;
      LeftUntilHandled(book, s, front, i);
      HandledIsGiven(book, HandleAll(book, s, front), i);
      TurnLog(book, s, rows, k);
    } else {
      LeftUntilHandled(book, s, rows, i);
    }
  }

  /** The log at the k-th row's turn, and what becomes of that row. */
  lemma {:induction false} TurnLog(book: Book, s: Facts, rows: seq<nat>, k: nat)
    requires AreOrphans(rows, s.log) && k < |rows|
    ensures Within(rows[..k], s.log)
    ensures var turn, after := HandleAll(book, s, rows[..k]), HandleAll(book, s, rows);
            && turn.log == after.log[..rows[k]] + s.log[rows[k]..]
            && after.log[rows[k]] == Handle(book, turn, rows[k]).log[rows[k]]
  {
    var turn, after := HandleAll(book, s, rows[..k]), HandleAll(book, s, rows);
    forall j | 0 <= j < |s.log| ensures turn.log[j] == if j < rows[k] then after.log[j] else s.log[j] {
      if j < rows[k] {
        SettledBefore(book, s, rows, k, j);
      } else {
        assert j !in rows[..k];
        LeftUntilHandled(book, s, rows[..k], j);
      }
    }
    assert rows[..k + 1][..k] == rows[..k];
    assert HandleAll(book, s, rows[..k + 1]) == Handle(book, turn, rows[k]);
    if k + 1 == |rows| {
      assert rows[..k + 1] == rows;
    } else {
      SettledBefore(book, s, rows, k + 1, rows[k]);
    }
  }

  /** A row below the k-th is settled when the k-th's turn comes. */
  lemma {:induction false} SettledBefore(book: Book, s: Facts, rows: seq<nat>, k: nat, j: nat)
    requires AreOrphans(rows, s.log) && k < |rows| && j < rows[k]
    ensures Within(rows[..k], s.log)
    ensures HandleAll(book, s, rows).log[j] == HandleAll(book, s, rows[..k]).log[j]
  {
    var front := rows[..|rows| - 1];
    assert rows[|rows| - 1] >= rows[k] > j;
    if k < |front| {
      SettledBefore(book, s, front, k, j);
      assert front[..k] == rows[..k];
    } else {
      assert front == rows[..k];
    }
  }

  /** The event reports this of that piece. */
  ghost predicate Tells(book: Book, e: Event, kind: EventType, piece: Id) {
    e.kind == kind && HasCode(book, e) && book.codes[e.payload.mailerCode.value].piece == piece
  }

  ghost predicate SomeTells(book: Book, log: seq<Event>, rows: seq<nat>, kind: EventType, piece: Id)
    requires Within(rows, log)
  {
    exists k :: 0 <= k < |rows| && Tells(book, log[rows[k]], kind, piece)
  }

  lemma {:induction false} TellsSnoc(book: Book, log: seq<Event>, rows: seq<nat>, kind: EventType, piece: Id)
    requires rows != [] && Within(rows, log)
    ensures Within(rows[..|rows| - 1], log)
    ensures SomeTells(book, log, rows, kind, piece)
            <==> SomeTells(book, log, rows[..|rows| - 1], kind, piece) || Tells(book, log[rows[|rows| - 1]], kind, piece)
  {
    var front := rows[..|rows| - 1];
    assert forall k :: 0 <= k < |front| ==> front[k] == rows[k];
  }

  lemma {:induction false} OneStatus(book: Book, s: Facts, i: nat, piece: Id)
    requires i < |s.log|
    ensures Handle(book, s, i).statuses.Keys == s.statuses.Keys
    ensures piece in s.statuses ==>
              Handle(book, s, i).statuses[piece]
              == (if s.statuses[piece] == Waves.Returned || Tells(book, s.log[i], PieceReturned, piece) then Waves.Returned
                  else if Tells(book, s.log[i], PieceDelivered, piece) then Waves.Delivered
                  else s.statuses[piece])
  {
  }

  /** The status of a piece after some rows: returned if it was or a row tells so; else delivered if a row
      tells so; else what it was. */
  lemma {:induction false} StatusIsToldOf(book: Book, s: Facts, rows: seq<nat>, piece: Id)
    requires AreOrphans(rows, s.log)
    ensures HandleAll(book, s, rows).statuses.Keys == s.statuses.Keys
    ensures piece in s.statuses ==>
              HandleAll(book, s, rows).statuses[piece]
              == (if s.statuses[piece] == Waves.Returned || SomeTells(book, s.log, rows, PieceReturned, piece) then Waves.Returned
                  else if SomeTells(book, s.log, rows, PieceDelivered, piece) then Waves.Delivered
                  else s.statuses[piece])
  {
    if rows != [] {
      var front, last := rows[..|rows| - 1], rows[|rows| - 1];
      assert rows == front + [last];
      StatusIsToldOf(book, s, front, piece);
      LeftUntilHandled(book, s, front, last);
      OneStatus(book, HandleAll(book, s, front), last, piece);
      TellsSnoc(book, s.log, rows, PieceReturned, piece);
      TellsSnoc(book, s.log, rows, PieceDelivered, piece);
    }
  }
}
