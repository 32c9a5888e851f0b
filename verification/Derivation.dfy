/** What contact state means: events to judgment, no state (derivation/rules.py). */
module Derivation {
  import opened Types

  /** The caller-initiated signals that constitute a response. */
  const INBOUND: set<EventType> := {PageVisit, CallInbound, SmsInbound}

  /** Our engagement back on a live thread. */
  const ENGAGE: set<EventType> := {SmsOutbound, CallAnswered}

  const RETURNED_SUPPRESSION_COUNT := 2

  /** The instants of the events that satisfy p. */
  function Times(events: seq<Event>, p: Event -> bool): (ts: seq<Time>)
    ensures forall t :: t in ts <==> exists e :: e in events && p(e) && e.at == t
  {
    if events == [] then [] else
    var rest := Times(events[1..], p);
    assert events == [events[0]] + events[1..];
    if p(events[0]) then [events[0].at] + rest else rest
  }

  function MinTime(ts: seq<Time>): (m: Option<Time>)
    ensures m.None? <==> ts == []
    ensures m.Some? ==> m.value in ts && forall t :: t in ts ==> m.value <= t
  {
    if ts == [] then None else
    assert ts == [ts[0]] + ts[1..];
    match MinTime(ts[1..])
    case None => Some(ts[0])
    case Some(m) => Some(if ts[0] <= m then ts[0] else m)
  }

  function MaxTime(ts: seq<Time>): (m: Option<Time>)
    ensures m.None? <==> ts == []
    ensures m.Some? ==> m.value in ts && forall t :: t in ts ==> t <= m.value
  {
    if ts == [] then None else
    assert ts == [ts[0]] + ts[1..];
    match MaxTime(ts[1..])
    case None => Some(ts[0])
    case Some(m) => Some(if m <= ts[0] then ts[0] else m)
  }

  function FirstSubmittedAt(events: seq<Event>): Option<Time> {
    MinTime(Times(events, (e: Event) => e.kind == PieceSubmitted))
  }

  function LastLostAt(events: seq<Event>): Option<Time> {
    MaxTime(Times(events, (e: Event) => e.kind == ContactLost))
  }

  /** The earliest inbound that lands after the first piece. */
  function FirstResponseAt(events: seq<Event>): Option<Time> {
    match FirstSubmittedAt(events)
    case None => None
    case Some(submitted) =>
      MinTime(Times(events, (e: Event) => e.kind in INBOUND && e.at > submitted))
  }

  /** Suppression as a stage is an opt-out whose reason is not the mail-only one. */
  predicate IsOptOut(e: Event) {
    e.kind == ContactOptOut && e.payload.reason != Some("do_not_mail")
  }

  predicate IsSuppressed(events: seq<Event>) {
    exists e :: e in events && IsOptOut(e)
  }

  predicate HasSignup(events: seq<Event>) {
    exists e :: e in events && e.kind == SignupCompleted
  }

  predicate IsLost(events: seq<Event>) {
    match LastLostAt(events)
    case None => false
    case Some(lostAt) => !exists e :: e in events && e.kind in INBOUND && e.at > lostAt
  }

  function DeriveStage(events: seq<Event>): Stage {
    if IsSuppressed(events) then Suppressed
    else if HasSignup(events) then Won
    else if IsLost(events) then Lost
    else match FirstResponseAt(events)
      case Some(first) =>
        if exists e :: e in events && e.kind in ENGAGE && e.at > first then InConversation else Responded
      case None =>
        if exists e :: e in events && e.kind == PieceSubmitted then InSequence else Prospect
  }

  function ReturnedCount(events: seq<Event>): nat {
    if events == [] then 0
    else (if events[0].kind == PieceReturned then 1 else 0) + ReturnedCount(events[1..])
  }

  /** Two returned pieces mean the address failed, not the contact. */
  predicate IsAddressUndeliverable(events: seq<Event>) {
    ReturnedCount(events) >= RETURNED_SUPPRESSION_COUNT
  }

  // The reference reading of a stage: which events exist, with no scan, minimum or maximum.

  /** A page visit, a call or a text from the person. */
  ghost predicate IsReply(e: Event) {
    e.kind == PageVisit || e.kind == CallInbound || e.kind == SmsInbound
  }

  /** A text or an answered call from us. */
  ghost predicate IsEngagement(e: Event) {
    e.kind == SmsOutbound || e.kind == CallAnswered
  }

  /** An opt-out, unless its one reason is that mail should stop. */
  ghost predicate OptedOut(events: seq<Event>) {
    exists e :: e in events && e.kind == ContactOptOut && (e.payload.reason.None? || e.payload.reason.value != "do_not_mail")
  }

  ghost predicate SignedUp(events: seq<Event>) {
    exists e :: e in events && e.kind == SignupCompleted
  }

  ghost predicate WasMailed(events: seq<Event>) {
    exists s :: s in events && s.kind == PieceSubmitted
  }

  /** r is an inbound that came after some piece went out. */
  ghost predicate Answers(events: seq<Event>, r: Event) {
    && r in events && IsReply(r)
    && exists s :: s in events && s.kind == PieceSubmitted && s.at < r.at
  }

  ghost predicate HasReply(events: seq<Event>) {
    exists r :: Answers(events, r)
  }

  /** g is our engagement after some answer. */
  ghost predicate FollowsUp(events: seq<Event>, g: Event) {
    && g in events && IsEngagement(g)
    && exists r :: Answers(events, r) && r.at < g.at
  }

  ghost predicate HasExchange(events: seq<Event>) {
    exists g :: FollowsUp(events, g)
  }

  ghost predicate LaterThanEveryLoss(events: seq<Event>, t: Time) {
    forall l :: l in events && l.kind == ContactLost ==> l.at < t
  }

  ghost predicate WasLost(events: seq<Event>) {
    exists l :: l in events && l.kind == ContactLost
  }

  /** Some inbound came after the contact was last declared lost. */
  ghost predicate WasRevived(events: seq<Event>) {
    exists r :: r in events && IsReply(r) && LaterThanEveryLoss(events, r.at)
  }

  ghost function Meaning(events: seq<Event>): Stage {
    if OptedOut(events) then Suppressed
    else if SignedUp(events) then Won
    else if WasLost(events) && !WasRevived(events) then Lost
    else if HasExchange(events) then InConversation
    else if HasReply(events) then Responded
    else if WasMailed(events) then InSequence
    else Prospect
  }

  /** Two pieces came back. */
  ghost predicate CameBackTwice(events: seq<Event>) {
    exists i, j :: 0 <= i < j < |events| && events[i].kind == PieceReturned && events[j].kind == PieceReturned
  }

  lemma {:induction false} ReturnedOnce(events: seq<Event>)
    ensures ReturnedCount(events) >= 1 <==> exists i :: 0 <= i < |events| && events[i].kind == PieceReturned
  {
    if events != [] {
      ReturnedOnce(events[1..]);
      assert forall i :: 0 < i < |events| ==> events[i] == events[1..][i - 1];
    }
  }

  /** The address has failed exactly when two pieces came back. */
  lemma {:induction false} AddressMeaning(events: seq<Event>)
    ensures IsAddressUndeliverable(events) <==> CameBackTwice(events)
  {
    if events != [] {
      var rest := events[1..];
      AddressMeaning(rest);
      ReturnedOnce(rest);
      assert forall i :: 0 < i < |events| ==> events[i] == rest[i - 1];
      assert ReturnedCount(events) == ReturnedCount(rest) + if events[0].kind == PieceReturned then 1 else 0;
      if CameBackTwice(rest) {
        var i, j :| 0 <= i < j < |rest| && rest[i].kind == PieceReturned && rest[j].kind == PieceReturned;
        assert events[i + 1] == rest[i] && events[j + 1] == rest[j];
      }
      if events[0].kind == PieceReturned && ReturnedCount(rest) >= 1 {
        var i :| 0 <= i < |rest| && rest[i].kind == PieceReturned;
        assert events[i + 1] == rest[i];
      }
    }
  }

  lemma {:induction false} LostMeaning(events: seq<Event>)
    ensures IsLost(events) <==> WasLost(events) && !WasRevived(events)
  {
    var p := (e: Event) => e.kind == ContactLost;
    var times := Times(events, p);
    assert forall l :: l in events && p(l) ==> l.at in times;
    match LastLostAt(events)
    case None =>
    case Some(lostAt) =>
      var l :| l in events && p(l) && l.at == lostAt;
      forall r | r in events ensures LaterThanEveryLoss(events, r.at) <==> r.at > lostAt {
        assert forall l' :: l' in events && p(l') ==> l'.at in times;
      }
  }

  lemma {:induction false} FirstSubmittedMeaning(events: seq<Event>)
    ensures FirstSubmittedAt(events).None? <==> !WasMailed(events)
    ensures FirstSubmittedAt(events).Some? ==>
              forall t: Time :: FirstSubmittedAt(events).value < t <==> MailedBefore(events, t)
  {
    var p := (e: Event) => e.kind == PieceSubmitted;
    var times := Times(events, p);
    assert forall e :: e in events && p(e) ==> e.at in times;
    if FirstSubmittedAt(events).Some? {
      var s :| s in events && p(s) && s.at == FirstSubmittedAt(events).value;
    }
  }

  ghost predicate MailedBefore(events: seq<Event>, t: Time) {
    exists s :: s in events && s.kind == PieceSubmitted && s.at < t
  }

  ghost predicate AnsweredBefore(events: seq<Event>, t: Time) {
    exists r :: Answers(events, r) && r.at < t
  }

  lemma {:induction false} FirstResponseMeaning(events: seq<Event>)
    ensures FirstResponseAt(events).None? <==> !HasReply(events)
    ensures FirstResponseAt(events).Some? ==>
              forall t: Time :: FirstResponseAt(events).value < t <==> AnsweredBefore(events, t)
  {
    FirstSubmittedMeaning(events);
    if FirstSubmittedAt(events).Some? {
      var submitted := FirstSubmittedAt(events).value;
      var p := (e: Event) => e.kind in INBOUND && e.at > submitted;
      var times := Times(events, p);
      forall r | r in events ensures p(r) <==> Answers(events, r) {
        assert submitted < r.at <==> MailedBefore(events, r.at);
      }
      assert forall e :: Answers(events, e) ==> e.at in times;
      if FirstResponseAt(events).Some? {
        var r :| r in events && p(r) && r.at == FirstResponseAt(events).value;
        assert Answers(events, r);
      }
    }
  }

  /** The scans and the precedence of the code compute exactly the reference reading. */
  lemma {:induction false} StageMeaning(events: seq<Event>)
    ensures DeriveStage(events) == Meaning(events)
  {
    LostMeaning(events);
    FirstSubmittedMeaning(events);
    FirstResponseMeaning(events);
    match FirstResponseAt(events)
    case None =>
    case Some(t) =>
      forall g | g in events && g.kind in ENGAGE ensures g.at > t <==> FollowsUp(events, g) {
        assert t < g.at <==> AnsweredBefore(events, g.at);
      }
  }

  /** The only events a stage reads. */
  ghost predicate IsJudged(e: Event) {
    || IsReply(e) || IsEngagement(e)
    || e.kind == PieceSubmitted || e.kind == ContactOptOut || e.kind == SignupCompleted || e.kind == ContactLost
  }

  /** Every judged event of a is an event of b. */
  ghost predicate JudgedIn(a: seq<Event>, b: seq<Event>) {
    forall e :: e in a && IsJudged(e) ==> e in b
  }

  lemma {:induction false} LadderGrows(a: seq<Event>, b: seq<Event>)
    requires JudgedIn(a, b)
    ensures WasMailed(a) ==> WasMailed(b)
    ensures HasReply(a) ==> HasReply(b)
    ensures HasExchange(a) ==> HasExchange(b)
  {
    forall r | Answers(a, r) ensures Answers(b, r) {
    }
    forall g | FollowsUp(a, g) ensures FollowsUp(b, g) {
    }
  }

  lemma {:induction false} LossGrows(a: seq<Event>, b: seq<Event>)
    requires JudgedIn(a, b)
    ensures OptedOut(a) ==> OptedOut(b)
    ensures SignedUp(a) ==> SignedUp(b)
    ensures WasLost(a) ==> WasLost(b)
    ensures forall t: Time :: LaterThanEveryLoss(b, t) ==> LaterThanEveryLoss(a, t)
  {
  }

  /** A stage depends on the set of judged events and on nothing else: not on their order, not on
      repetition, not on any other event in the stream. */
  lemma {:induction false} StageReadsJudgedEventsOnly(a: seq<Event>, b: seq<Event>)
    requires JudgedIn(a, b) && JudgedIn(b, a)
    ensures DeriveStage(a) == DeriveStage(b)
  {
    StageMeaning(a);
    StageMeaning(b);
    LadderGrows(a, b);
    LadderGrows(b, a);
    LossGrows(a, b);
    LossGrows(b, a);
    assert WasRevived(a) == WasRevived(b);
  }

  lemma {:induction false} StageIgnoresOrder(a: seq<Event>, b: seq<Event>)
    requires multiset(a) == multiset(b)
    ensures DeriveStage(a) == DeriveStage(b)
    ensures IsAddressUndeliverable(a) == IsAddressUndeliverable(b)
  {
    assert forall e :: e in a <==> e in multiset(a);
    assert forall e :: e in b <==> e in multiset(b);
    StageReadsJudgedEventsOnly(a, b);
    ReturnedGrows(a, b);
    ReturnedGrows(b, a);
  }

  lemma {:induction false} ReturnedRemove(s: seq<Event>, i: nat)
    requires i < |s|
    ensures ReturnedCount(s) == ReturnedCount(s[..i] + s[i + 1..]) + (if s[i].kind == PieceReturned then 1 else 0)
  {
    if i == 0 {
      assert s[..0] + s[1..] == s[1..];
    } else {
      ReturnedRemove(s[1..], i - 1);
      assert (s[..i] + s[i + 1..])[1..] == s[1..][..i - 1] + s[1..][i..];
    }
  }

  lemma {:induction false} CancelOne<T>(a: multiset<T>, b: multiset<T>, x: T)
    requires a + multiset{x} <= b + multiset{x}
    ensures a <= b
  {
    forall e: T ensures a[e] <= b[e] {
      assert (a + multiset{x})[e] <= (b + multiset{x})[e];
    }
  }

  lemma {:induction false} ReturnedGrows(a: seq<Event>, b: seq<Event>)
    requires multiset(a) <= multiset(b)
    ensures ReturnedCount(a) <= ReturnedCount(b)
  {
    if a != [] {
      assert a == [a[0]] + a[1..];
      assert a[0] in multiset(b);
      var i :| 0 <= i < |b| && b[i] == a[0];
      assert b == b[..i] + [b[i]] + b[i + 1..];
      var rest := b[..i] + b[i + 1..];
      assert multiset(b) == multiset(rest) + multiset{b[i]};
      assert multiset(a) == multiset(a[1..]) + multiset{a[0]};
      CancelOne(multiset(a[1..]), multiset(rest), a[0]);
      ReturnedGrows(a[1..], rest);
      ReturnedRemove(b, i);
    }
  }

  /** The response ladder, below the three stages that leave it. */
  function Rung(stage: Stage): Option<nat> {
    match stage
    case Prospect => Some(0)
    case InSequence => Some(1)
    case Responded => Some(2)
    case InConversation => Some(3)
    case _ => None
  }

  /** What any further events, at any instants, can do to a stage. */
  lemma {:induction false} AddingEvents(before: seq<Event>, after: seq<Event>)
    requires multiset(before) <= multiset(after)
    ensures DeriveStage(before) == Suppressed ==> DeriveStage(after) == Suppressed
    ensures DeriveStage(before) == Won ==> DeriveStage(after) in {Won, Suppressed}
    ensures DeriveStage(before) == Lost ==>
              (DeriveStage(after) != Lost <==>
               OptedOut(after) || SignedUp(after) || RevivedBy(before, after))
    ensures Rung(DeriveStage(before)).Some? && Rung(DeriveStage(after)).Some? ==>
              Rung(DeriveStage(before)).value <= Rung(DeriveStage(after)).value
    ensures IsAddressUndeliverable(before) ==> IsAddressUndeliverable(after)
  {
    assert forall e :: e in before ==> e in multiset(before);
    assert forall e :: e in multiset(after) ==> e in after;
    StageMeaning(before);
    StageMeaning(after);
    MeaningGrows(before, after);
    ReturnedGrows(before, after);
  }

  lemma {:induction false} MeaningGrows(before: seq<Event>, after: seq<Event>)
    requires JudgedIn(before, after)
    ensures Meaning(before) == Suppressed ==> Meaning(after) == Suppressed
    ensures Meaning(before) == Won ==> Meaning(after) in {Won, Suppressed}
    ensures Meaning(before) == Lost ==>
              (Meaning(after) != Lost <==> OptedOut(after) || SignedUp(after) || RevivedBy(before, after))
    ensures Rung(Meaning(before)).Some? && Rung(Meaning(after)).Some? ==>
              Rung(Meaning(before)).value <= Rung(Meaning(after)).value
  {
    LadderGrows(before, after);
    LossGrows(before, after);
    if Meaning(before) == Lost && WasRevived(after) {
      var r :| r in after && IsReply(r) && LaterThanEveryLoss(after, r.at);
      assert r !in before;
    }
  }

  /** An added inbound that is later than every loss on record. */
  ghost predicate RevivedBy(before: seq<Event>, after: seq<Event>) {
    exists r :: r in after && r !in before && IsReply(r) && LaterThanEveryLoss(after, r.at)
  }
}
