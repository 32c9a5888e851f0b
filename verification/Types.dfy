/** The vocabulary every other module shares: ids, time, events and the event log. */
module Types {
  datatype Option<+T> = None | Some(value: T)

  /** Primary keys. A UUID is only ever compared and ordered, so a natural number stands for it. */
  type Id = nat

  /** Instants are whole seconds; a date is the number of whole days before it (UTC). */
  type Time = int

  const DAY: int := 86_400

  function DateOf(t: Time): int {
    t / DAY
  }

  /** The house account every return-to-house targets (config/params.py). */
  const HOUSE: Id := 1

  datatype Stage = Prospect | InSequence | Responded | InConversation | Won | Lost | Suppressed

  datatype Source = Lob | Posthog | Nmc | Human | System

  /** The two intake tables, and a row's place: its table and its list key there. */
  datatype Family = Cslb | Fbn

  datatype Slot = Slot(family: Family, key: Id)

  datatype Channel = Mail | Sms | Voice

  /** A suppression that outlives its contact: by phone, by list key, or both. The key is of no one table. */
  datatype Tombstone = Tombstone(phone: Option<string>, listKey: Option<Id>, channel: Channel)

  /** The closed event taxonomy (domain/taxonomy.py). */
  datatype EventType =
    | PieceSubmitted | PieceDelivered | PieceReturned
    | PageVisit | PageCtaClick
    | CallInbound | CallMissed | CallAnswered
    | SmsInbound | SmsOutbound
    | DemoBooked | DemoHeld | DemoNoShow
    | SignupCompleted
    | NoteDemoCall | NotePartner | NoteGeneral
    | ContactOptOut | ContactLost
    | ContactAssigned | ContactAssignmentExpired | ContactReclaimed
    | ContactDncChecked | ContactSuppressed | ContactSuppressionCleared
    | NudgeSent

  /** The idempotency keys the writers mint: one constructor per format string. */
  datatype ExternalId =
    | SubmittedKey(piece: Id)
    | DncKey(contact: Id, snapshot: Id)
    | DncVersionKey(contact: Id, version: string)
    | DncClearKey(contact: Id, snapshot: Id)
    | FeedKey(text: string)

  /** The payload keys some reader branches on; an absent key is None. */
  datatype Payload = Payload(
    reason: Option<string> := None,
    newOwner: Option<Id> := None,
    batch: Option<Id> := None,
    mailerCode: Option<string> := None,
    thread: Option<string> := None,
    phone: Option<string> := None,
    phoneE164: Option<string> := None,
    snapshot: Option<Id> := None,
    rule: Option<string> := None,
    wave: Option<Id> := None)

  /** One row of the events table. Its id is its position in the log. */
  datatype Event = Event(
    contact: Option<Id>,
    piece: Option<Id>,
    source: Source,
    kind: EventType,
    at: Time,
    external: Option<ExternalId>,
    payload: Payload)

  predicate HasKey(log: seq<Event>, source: Source, key: ExternalId) {
    exists i :: 0 <= i < |log| && log[i].source == source && log[i].external == Some(key)
  }

  /** append_event: a second row under one (source, external id) is silently not inserted. */
  function Append(log: seq<Event>, e: Event): (r: seq<Event>)
    ensures log <= r
  {
    if e.external.Some? && HasKey(log, e.source, e.external.value) then log else log + [e]
  }

  /** What str.strip takes for white space. */
  predicate IsSpace(c: char) {
    var code := c as int;
    || 9 <= code <= 13 || 28 <= code <= 32 || code in {0x85, 0xA0, 0x1680, 0x2028, 0x2029, 0x202F, 0x205F, 0x3000}
    || 0x2000 <= code <= 0x200A
  }

  /** The elements of s that satisfy p, in order. */
  function Filter<T(!new)>(s: seq<T>, p: T -> bool): (r: seq<T>)
    ensures forall x :: x in r <==> x in s && p(x)
    ensures |r| <= |s|
  {
    if s == [] then [] else
    var rest := Filter(s[..|s| - 1], p);
    assert s == s[..|s| - 1] + [s[|s| - 1]];
    if p(s[|s| - 1]) then rest + [s[|s| - 1]] else rest
  }

  ghost predicate Distinct<T>(s: seq<T>) {
    forall i, j :: 0 <= i < j < |s| ==> s[i] != s[j]
  }

  ghost predicate IsAscending(s: seq<Id>) {
    forall i, j :: 0 <= i < j < |s| ==> s[i] < s[j]
  }

  predicate IsLeast(s: set<Id>, m: Id) {
    m in s && forall x :: x in s ==> m <= x
  }

  lemma {:induction false} MinExists(s: set<Id>)
    requires s != {}
    ensures exists m :: IsLeast(s, m)
  {
    var m :| m in s;
    var rest := s - {m};
    var least := m;
    if rest != {} {
      MinExists(rest);
      var n :| IsLeast(rest, n);
      least := if m < n then m else n;
    }
    forall x | x in s ensures least <= x {
      assert x == m || x in rest;
    }
    assert IsLeast(s, least);
  }

  function MinOf(s: set<Id>): (m: Id)
    requires s != {}
    ensures m in s && forall x :: x in s ==> m <= x
  {
    MinExists(s);
    var m :| IsLeast(s, m);
    m
  }

  /** `order by id`: the ids of a set, lowest first. */
  function Ascending(s: set<Id>): (r: seq<Id>)
    ensures IsAscending(r)
    ensures forall x :: x in r <==> x in s
    ensures |r| == |s|
  {
    if s == {} then [] else [MinOf(s)] + Ascending(s - {MinOf(s)})
  }
}
