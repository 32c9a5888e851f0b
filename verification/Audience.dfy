/** Who a wave mails: the rule, its sample, and the two address trims (service/waves.py). */
module Audience {
  import opened Types
  import opened Custody

  /** The deliverability verdict and delivery point of a contact's primary intake row. */
  datatype Primary = Primary(verdict: Option<string>, point: Option<string>)

  /** What the rule and the trims read of a contact. `shuffle` is the md5 of its id, as a number. */
  datatype Addressee = Addressee(
    phone: Option<string>,
    segment: Option<string>,
    source: Option<string>,
    city: Option<string>,
    zip: Option<string>,
    trades: set<string>,
    stage: Stage,
    doNotMail: bool,
    addressUndeliverable: bool,
    isSeed: bool,
    primary: Option<Primary>,
    shuffle: nat)

  /** A mailer code is deterministic per wave and contact; the truncated hash is taken as injective. */
  datatype Code = Code(wave: Id, contact: Id)

  /** The audience rule; `unknown` holds the keys outside the grammar. */
  datatype AudienceRule = AudienceRule(
    segment: Option<seq<string>> := None,
    trade: Option<seq<string>> := None,
    source: Option<seq<string>> := None,
    city: Option<seq<string>> := None,
    zipPrefix: Option<seq<string>> := None,
    areaCode: Option<seq<string>> := None,
    stage: Option<seq<Stage>> := None,
    notRespondedTo: Option<Id> := None,
    limit: Option<int> := None,
    unknown: set<string> := {})

  datatype Resolved = Resolved(ids: seq<Id>, excluded: nat, deduped: nat)

  type Leads = map<Id, Addressee>

  predicate IsValidRule(rule: AudienceRule) {
    rule.unknown == {} && (rule.limit.Some? ==> rule.limit.value >= 1)
  }

  function Lower(s: string): string {
    if s == "" then "" else
    [if 'A' <= s[0] <= 'Z' then ((s[0] as int) + 32) as char else s[0]] + Lower(s[1..])
  }

  /** Each letter is lowered where it stands. */
  lemma {:induction false} LowerLetters(s: string)
    ensures |Lower(s)| == |s|
    ensures forall i :: 0 <= i < |s| ==>
              if 'A' <= s[i] <= 'Z' then 'a' <= Lower(s)[i] <= 'z' && Lower(s)[i] as int - 'a' as int == s[i] as int - 'A' as int
              else Lower(s)[i] == s[i]
  {
    if s != "" {
      LowerLetters(s[1..]);
    }
  }

  predicate OneOf(value: Option<string>, allowed: Option<seq<string>>) {
    allowed.Some? ==> value.Some? && value.value in allowed.value
  }

  predicate CityMatches(city: Option<string>, allowed: Option<seq<string>>) {
    allowed.Some? ==> city.Some? && exists i :: 0 <= i < |allowed.value| && Lower(allowed.value[i]) == Lower(city.value)
  }

  /** A pattern match in SQL's sense: `%` stands for any text, `_` for one character, and a backslash
      takes the next character as it is. */
  predicate Like(text: string, pattern: string)
    decreases |pattern|, |text|
  {
    if pattern == "" then text == ""
    else if pattern[0] == '%' then Like(text, pattern[1..]) || (text != "" && Like(text[1..], pattern))
    else if pattern[0] == '\\' && |pattern| > 1 then text != "" && text[0] == pattern[1] && Like(text[1..], pattern[2..])
    else text != "" && (pattern[0] == '_' || text[0] == pattern[0]) && Like(text[1..], pattern[1..])
  }

  lemma {:induction false} AnyTextIsLike(text: string)
    ensures Like(text, "%")
  {
    assert "%"[1..] == "";
    if text != "" {
      AnyTextIsLike(text[1..]);
    }
  }

  /** One unit of a pattern: a character, or a gap that any one character fills. */
  datatype Unit = Letter(c: char) | Gap

  predicate Fits(c: char, u: Unit) {
    u.Gap? || u.c == c
  }

  /** How a unit may be written: a letter as itself or behind a backslash, a gap as `_`. */
  predicate Writes(text: string, u: Unit) {
    match u
    case Gap => text == "_"
    case Letter(c) => (text == [c] && c !in {'%', '_', '\\'}) || text == ['\\', c]
  }

  /** The units of a pattern, each in one of its spellings. */
  predicate Spells(pattern: string, units: seq<Unit>)
    decreases |units|
  {
    if units == [] then pattern == ""
    else exists k :: 0 <= k <= |pattern| && Writes(pattern[..k], units[0]) && Spells(pattern[k..], units[1..])
  }

  /** A pattern with a `%` after it selects the texts that begin with one character for each unit, the
      letters as they are. */
  lemma {:induction false} PatternIsPrefix(text: string, pattern: string, units: seq<Unit>)
    requires Spells(pattern, units)
    ensures Like(text, pattern + "%") <==> |units| <= |text| && forall i :: 0 <= i < |units| ==> Fits(text[i], units[i])
    decreases |units|
  {
    if units == [] {
      assert pattern + "%" == "%";
      AnyTextIsLike(text);
    } else {
      var k :| 0 <= k <= |pattern| && Writes(pattern[..k], units[0]) && Spells(pattern[k..], units[1..]);
      var whole := pattern + "%";
      assert forall j :: 0 <= j < k ==> whole[j] == pattern[..k][j];
      assert whole[k..] == pattern[k..] + "%";
      assert |pattern[..k]| == k && (k == 1 || k == 2);
      if text != "" {
        PatternIsPrefix(text[1..], pattern[k..], units[1..]);
        assert Like(text, whole) <==> Fits(text[0], units[0]) && Like(text[1..], whole[k..]);
        assert forall i :: 1 <= i < |text| ==> text[i] == text[1..][i - 1];
        assert forall i :: 1 <= i < |units| ==> units[i] == units[1..][i - 1];
      }
    }
  }

  /** A pattern of plain characters with a `%` after them selects what begins with them. */
  lemma {:induction false} PlainPatternIsPrefix(text: string, plain: string)
    requires forall i :: 0 <= i < |plain| ==> plain[i] !in {'%', '_', '\\'}
    ensures Like(text, plain + "%") <==> plain <= text
  {
    var units := seq(|plain|, i requires 0 <= i < |plain| => Letter(plain[i]));
    PlainSpells(plain, units);
    PatternIsPrefix(text, plain, units);
    assert plain <= text <==> |plain| <= |text| && forall i :: 0 <= i < |plain| ==> text[i] == plain[i];
  }

  lemma {:induction false} PlainSpells(plain: string, units: seq<Unit>)
    requires |units| == |plain| && forall i :: 0 <= i < |plain| ==> plain[i] !in {'%', '_', '\\'} && units[i] == Letter(plain[i])
    ensures Spells(plain, units)
    decreases |plain|
  {
    if plain != "" {
      PlainSpells(plain[1..], units[1..]);
      assert Writes(plain[..1], units[0]);
    }
  }

  /** str.strip. */
  function Strip(s: string): string {
    if s != "" && IsSpace(s[0]) then Strip(s[1..])
    else if s != "" && IsSpace(s[|s| - 1]) then Strip(s[..|s| - 1])
    else s
  }

  /** What is left is the middle of the text, between white space and white space, and has none at its ends. */
  lemma {:induction false} StripMeaning(s: string) returns (lo: nat, hi: nat)
    ensures lo <= hi <= |s| && Strip(s) == s[lo..hi]
    ensures forall i :: 0 <= i < |s| && (i < lo || hi <= i) ==> IsSpace(s[i])
    ensures lo < hi ==> !IsSpace(s[lo]) && !IsSpace(s[hi - 1])
    decreases |s|
  {
    if s != "" && IsSpace(s[0]) {
      lo, hi := StripMeaning(s[1..]);
      lo, hi := lo + 1, hi + 1;
    } else if s != "" && IsSpace(s[|s| - 1]) {
      lo, hi := StripMeaning(s[..|s| - 1]);
    } else {
      lo, hi := 0, |s|;
    }
  }

  predicate ZipMatches(zip: Option<string>, allowed: Option<seq<string>>) {
    allowed.Some? ==> zip.Some? && exists i :: 0 <= i < |allowed.value| && Like(zip.value, Strip(allowed.value[i]) + "%")
  }

  predicate AreaMatches(phone: Option<string>, allowed: Option<seq<string>>) {
    allowed.Some? ==> phone.Some? && exists i :: 0 <= i < |allowed.value| && AreaCode(phone.value) == Strip(allowed.value[i])
  }

  predicate TradeMatches(trades: set<string>, allowed: Option<seq<string>>) {
    allowed.Some? ==> exists i :: 0 <= i < |allowed.value| && allowed.value[i] in trades
  }

  /** The exclusions no rule can lift. */
  predicate IsMailable(lead: Addressee) {
    !lead.doNotMail && !lead.addressUndeliverable && lead.stage != Suppressed && !lead.isSeed
  }

  predicate Selects(rule: AudienceRule, mailed: set<Code>, id: Id, lead: Addressee) {
    && IsMailable(lead)
    && OneOf(lead.segment, rule.segment)
    && TradeMatches(lead.trades, rule.trade)
    && OneOf(lead.source, rule.source)
    && CityMatches(lead.city, rule.city)
    && ZipMatches(lead.zip, rule.zipPrefix)
    && AreaMatches(lead.phone, rule.areaCode)
    && (rule.stage.Some? ==> lead.stage in rule.stage.value)
    && (rule.notRespondedTo.Some? ==>
          lead.stage in {Prospect, InSequence} && Code(rule.notRespondedTo.value, id) in mailed)
  }

  function Population(leads: Leads, mailed: set<Code>, rule: AudienceRule): (r: set<Id>)
    ensures r <= leads.Keys
  {
    set id | id in leads && Selects(rule, mailed, id, leads[id])
  }

  // The order of the sample: by hash, then by id.

  predicate Before(leads: Leads, a: Id, b: Id)
    requires a in leads && b in leads
  {
    leads[a].shuffle < leads[b].shuffle || (leads[a].shuffle == leads[b].shuffle && a < b)
  }

  predicate IsFirst(leads: Leads, s: set<Id>, id: Id)
    requires s <= leads.Keys
  {
    id in s && forall other :: other in s && other != id ==> Before(leads, id, other)
  }

  lemma {:induction false} FirstExists(leads: Leads, s: set<Id>) returns (id: Id)
    requires s <= leads.Keys && s != {}
    ensures IsFirst(leads, s, id)
  {
    var some :| some in s;
    id := some;
    var rest := s - {some};
    assert forall x :: x in s ==> x == some || x in rest;
    if rest != {} {
      var best := FirstExists(leads, rest);
      if Before(leads, best, some) {
        id := best;
      }
    }
  }

  function Ranked(leads: Leads, s: set<Id>): (r: seq<Id>)
    requires s <= leads.Keys
    ensures |r| == |s| && forall id :: id in r <==> id in s
    ensures forall i, j :: 0 <= i < j < |r| ==> r[i] in leads && r[j] in leads && Before(leads, r[i], r[j])
  {
    if s == {} then [] else
    assert exists id :: IsFirst(leads, s, id) by { var id := FirstExists(leads, s); }
    var id :| IsFirst(leads, s, id);
    [id] + Ranked(leads, s - {id})
  }

  function Candidates(leads: Leads, mailed: set<Code>, rule: AudienceRule): (r: seq<Id>)
    ensures forall id :: id in r ==> id in Population(leads, mailed, rule)
  {
    var population := Population(leads, mailed, rule);
    if rule.limit.None? then Ascending(population)
    else
      var ranked := Ranked(leads, population);
      var r := FirstN(ranked, rule.limit);
      assert forall i :: 0 <= i < |r| ==> r[i] == ranked[i];
      r
  }

  // The trims.

  function Verdict(leads: Leads, id: Id): Option<string> {
    if id in leads && leads[id].primary.Some? then leads[id].primary.value.verdict else None
  }

  /** The delivery point that dedupes: an empty one does not. */
  function PointOf(leads: Leads, id: Id): Option<string> {
    if id in leads && leads[id].primary.Some? && leads[id].primary.value.point != Some("")
    then leads[id].primary.value.point else None
  }

  predicate IsDeliverable(leads: Leads, id: Id) {
    Verdict(leads, id) != Some("undeliverable")
  }

  predicate HasPhone(leads: Leads, id: Id) {
    id in leads && leads[id].phone.Some?
  }

  /** Which of two sharers a delivery point keeps: the one with a phone, then the lower id. */
  predicate Outranks(leads: Leads, a: Id, b: Id) {
    if HasPhone(leads, a) != HasPhone(leads, b) then HasPhone(leads, a) else a <= b
  }

  predicate Shares(leads: Leads, a: Id, b: Id) {
    PointOf(leads, a).Some? && PointOf(leads, a) == PointOf(leads, b)
  }

  predicate IsKeeper(leads: Leads, kept: seq<Id>, id: Id) {
    forall other :: other in kept && Shares(leads, id, other) ==> Outranks(leads, id, other)
  }

  function DeliverableTest(leads: Leads): Id -> bool {
    (id: Id) => IsDeliverable(leads, id)
  }

  function KeeperTest(leads: Leads, kept: seq<Id>): Id -> bool {
    (id: Id) => IsKeeper(leads, kept, id)
  }

  function Deliverable(leads: Leads, ids: seq<Id>): seq<Id> {
    Filter(ids, DeliverableTest(leads))
  }

  function Keepers(leads: Leads, kept: seq<Id>): seq<Id> {
    Filter(kept, KeeperTest(leads, kept))
  }

  function Seeds(leads: Leads): (r: seq<Id>)
    ensures forall id :: id in r <==> id in leads && leads[id].isSeed
    ensures IsAscending(r)
  {
    Ascending(set id | id in leads && leads[id].isSeed)
  }

  /** The two trims: exclude, then deduplicate what is left. */
  function Trimmed(leads: Leads, candidates: seq<Id>): Resolved {
    var kept := Deliverable(leads, candidates);
    var keepers := Keepers(leads, kept);
    Resolved(keepers, |candidates| - |kept|, |kept| - |keepers|)
  }

  /** What resolving a rule means: the trimmed candidates, and every seed. */
  function Resolution(leads: Leads, mailed: set<Code>, rule: AudienceRule): Resolved {
    var trimmed := Trimmed(leads, Candidates(leads, mailed, rule));
    trimmed.(ids := trimmed.ids + Seeds(leads))
  }

  // The loops.

  lemma {:induction false} FilterCongruence<T(!new)>(s: seq<T>, p: T -> bool, q: T -> bool)
    requires forall x :: x in s ==> p(x) == q(x)
    ensures Filter(s, p) == Filter(s, q)
  {
    if s != [] {
      assert s == s[..|s| - 1] + [s[|s| - 1]];
      FilterCongruence(s[..|s| - 1], p, q);
    }
  }

  lemma {:induction false} FilterKeepsDistinct<T(!new)>(s: seq<T>, p: T -> bool)
    requires Distinct(s)
    ensures Distinct(Filter(s, p))
  {
    if s != [] {
      var rest := Filter(s[..|s| - 1], p);
      FilterKeepsDistinct(s[..|s| - 1], p);
      forall i | 0 <= i < |rest| ensures rest[i] != s[|s| - 1] {
        assert rest[i] in rest;
      }
    }
  }

  /** Of a list of distinct elements, the chosen and the rejected together number them all. */
  lemma {:induction false} FilterSplits<T(!new)>(s: seq<T>, p: T -> bool)
    requires Distinct(s)
    ensures |Filter(s, p)| + |set x | x in s && !p(x)| == |s|
  {
    if s != [] {
      var front, last := s[..|s| - 1], s[|s| - 1];
      assert s == front + [last];
      FilterSplits(front, p);
      var before := set x | x in front && !p(x);
      assert (set x | x in s && !p(x)) == before + (if p(last) then {} else {last});
    } else {
      assert (set x | x in s && !p(x)) == {};
    }
  }

  /** The keeper of one delivery point. */
  method KeeperOf(leads: Leads, sharing: seq<Id>) returns (keeper: Id)
    requires sharing != []
    ensures keeper in sharing && forall other :: other in sharing ==> Outranks(leads, keeper, other)
  {
    keeper := sharing[0];
    var i := 1;
    while i < |sharing|
      invariant 1 <= i <= |sharing| && keeper in sharing
      invariant forall k :: 0 <= k < i ==> Outranks(leads, keeper, sharing[k])
    {
      if !Outranks(leads, keeper, sharing[i]) {
        keeper := sharing[i];
      }
      i := i + 1;
    }
  }

  /** The survivors of the exclusion, grouped by delivery point. */
  ghost predicate IsGrouping(leads: Leads, kept: seq<Id>, byPoint: map<string, seq<Id>>) {
    && (forall point :: point in byPoint ==> byPoint[point] != [] && Distinct(byPoint[point]))
    && (forall point, id :: point in byPoint ==> (id in byPoint[point] <==> id in kept && PointOf(leads, id) == Some(point)))
    && (forall id :: id in kept && PointOf(leads, id).Some? ==> PointOf(leads, id).value in byPoint)
  }

  lemma {:induction false} JoinPoint(leads: Leads, before: seq<Id>, id: Id, byPoint: map<string, seq<Id>>)
    requires IsGrouping(leads, before, byPoint) && id !in before
    ensures var point := PointOf(leads, id);
            IsGrouping(leads, before + [id],
                       if point.Some? then byPoint[point.value := (if point.value in byPoint then byPoint[point.value] else []) + [id]]
                       else byPoint)
  {
    var point := PointOf(leads, id);
    if point.Some? {
      var sharing := if point.value in byPoint then byPoint[point.value] else [];
      assert id !in sharing;
    }
  }

  method GroupByPoint(leads: Leads, kept: seq<Id>) returns (byPoint: map<string, seq<Id>>)
    requires Distinct(kept)
    ensures IsGrouping(leads, kept, byPoint)
  {
    byPoint := map[];
    var i := 0;
    while i < |kept|
      invariant 0 <= i <= |kept|
      invariant IsGrouping(leads, kept[..i], byPoint)
    {
      var point := PointOf(leads, kept[i]);
      assert kept[..i + 1] == kept[..i] + [kept[i]];
      assert kept[i] !in kept[..i];
      JoinPoint(leads, kept[..i], kept[i], byPoint);
      if point.Some? {
        byPoint := byPoint[point.value := (if point.value in byPoint then byPoint[point.value] else []) + [kept[i]]];
      }
      i := i + 1;
    }
    assert kept[..|kept|] == kept;
  }

  /** Everyone who loses their delivery point to a better-ranked sharer. */
  method Losers(leads: Leads, kept: seq<Id>) returns (dropped: set<Id>)
    requires Distinct(kept)
    ensures dropped == set id | id in kept && !IsKeeper(leads, kept, id)
  {
    var byPoint := GroupByPoint(leads, kept);
    dropped := {};
    var left := byPoint.Keys;
    while left != {}
      invariant left <= byPoint.Keys
      invariant forall id :: id in dropped <==>
        id in kept && !IsKeeper(leads, kept, id) && PointOf(leads, id).Some? && PointOf(leads, id).value !in left
      decreases |left|
    {
      var point :| point in left;
      var sharing := byPoint[point];
      if |sharing| >= 2 {
        var keeper := KeeperOf(leads, sharing);
        KeeperIsKeeper(leads, kept, sharing, point, keeper);
        dropped := dropped + set id | id in sharing && id != keeper;
      } else {
        OnlySharerKeeps(leads, kept, sharing, point);
      }
      left := left - {point};
    }
  }

  lemma {:induction false} KeeperIsKeeper(leads: Leads, kept: seq<Id>, sharing: seq<Id>, point: string, keeper: Id)
    requires forall id :: id in sharing <==> id in kept && PointOf(leads, id) == Some(point)
    requires keeper in sharing && forall other :: other in sharing ==> Outranks(leads, keeper, other)
    ensures forall id :: id in sharing ==> (IsKeeper(leads, kept, id) <==> id == keeper)
  {
    forall id | id in sharing && id != keeper ensures !IsKeeper(leads, kept, id) {
      assert Shares(leads, id, keeper) && !Outranks(leads, id, keeper);
    }
  }

  lemma {:induction false} OnlySharerKeeps(leads: Leads, kept: seq<Id>, sharing: seq<Id>, point: string)
    requires forall id :: id in sharing <==> id in kept && PointOf(leads, id) == Some(point)
    requires |sharing| == 1
    ensures IsKeeper(leads, kept, sharing[0])
  {
    forall other | other in kept && Shares(leads, sharing[0], other) ensures Outranks(leads, sharing[0], other) {
      assert sharing[0] in sharing && other in sharing;
    }
  }

  /** Dropping the rejected leaves the chosen. */
  lemma {:induction false} DroppingLeaves<T(!new)>(s: seq<T>, p: T -> bool, dropped: set<T>)
    requires Distinct(s) && dropped == set x | x in s && !p(x)
    ensures Filter(s, x => x !in dropped) == Filter(s, p)
    ensures |dropped| == |s| - |Filter(s, p)|
  {
    FilterCongruence(s, x => x !in dropped, p);
    FilterSplits(s, p);
  }

  /** The exclusion, then the dedupe over what it leaves. */
  method Trim(leads: Leads, candidates: seq<Id>) returns (r: Resolved)
    requires Distinct(candidates)
    ensures r == Trimmed(leads, candidates)
  {
    var kept := Deliverable(leads, candidates);
    FilterKeepsDistinct(candidates, DeliverableTest(leads));
    var dropped := Losers(leads, kept);
    DroppingLeaves(kept, KeeperTest(leads, kept), dropped);
    return Resolved(Filter(kept, id => id !in dropped), |candidates| - |kept|, |dropped|);
  }

  /** resolve_audience; None is the refusal of a malformed rule. */
  method ResolveAudience(leads: Leads, mailed: set<Code>, rule: AudienceRule) returns (r: Option<Resolved>)
    ensures r.None? <==> rule.unknown != {} || (rule.limit.Some? && rule.limit.value < 1)
    ensures r.Some? ==> r.value == Resolution(leads, mailed, rule)
  {
    if !IsValidRule(rule) {
      return None;
    }
    var candidates := Candidates(leads, mailed, rule);
    CandidatesDistinct(leads, mailed, rule);
    var trimmed := Trim(leads, candidates);
    return Some(trimmed.(ids := trimmed.ids + Seeds(leads)));
  }

  // What the resolution promises.

  lemma {:induction false} CandidatesDistinct(leads: Leads, mailed: set<Code>, rule: AudienceRule)
    ensures Distinct(Candidates(leads, mailed, rule))
  {
  }

  /** Everyone selected is mailed, excluded or deduplicated, nobody twice, and every seed rides along. */
  lemma {:induction false} AudienceAccounts(leads: Leads, mailed: set<Code>, rule: AudienceRule)
    ensures var r := Resolution(leads, mailed, rule);
            && Distinct(r.ids)
            && |r.ids| + r.excluded + r.deduped == |Candidates(leads, mailed, rule)| + |Seeds(leads)|
            && (forall id :: id in leads && leads[id].isSeed ==> id in r.ids)
            && (forall id :: id in r.ids ==> id in leads)
  {
    var kept := Deliverable(leads, Candidates(leads, mailed, rule));
    CandidatesDistinct(leads, mailed, rule);
    FilterKeepsDistinct(Candidates(leads, mailed, rule), DeliverableTest(leads));
    FilterKeepsDistinct(kept, KeeperTest(leads, kept));
    var keepers := Keepers(leads, kept);
    forall i, j | 0 <= i < |keepers| && 0 <= j < |Seeds(leads)| ensures keepers[i] != Seeds(leads)[j] {
      assert keepers[i] in keepers && Seeds(leads)[j] in Seeds(leads);
    }
  }

  /** The best-ranked of the sharers of a delivery point. */
  lemma {:induction false} BestSharer(leads: Leads, sharing: set<Id>) returns (best: Id)
    requires sharing != {}
    ensures best in sharing && forall other :: other in sharing ==> Outranks(leads, best, other)
  {
    var some :| some in sharing;
    best := some;
    var rest := sharing - {some};
    assert forall x :: x in sharing ==> x == some || x in rest;
    if rest != {} {
      var other := BestSharer(leads, rest);
      if !Outranks(leads, some, other) {
        best := other;
      }
    }
  }

  /** Every delivery point that a deliverable candidate lives at receives exactly one piece, addressed
      to a sharer with a phone if any deliverable sharer has one. An undeliverable twin costs nobody
      their mail. */
  lemma {:induction false} OnePiecePerDeliveryPoint(leads: Leads, mailed: set<Code>, rule: AudienceRule, id: Id) returns (keeper: Id)
    requires id in Candidates(leads, mailed, rule) && IsDeliverable(leads, id) && PointOf(leads, id).Some?
    ensures keeper in Candidates(leads, mailed, rule) && keeper in Resolution(leads, mailed, rule).ids
    ensures Shares(leads, id, keeper)
    ensures forall other :: other in Candidates(leads, mailed, rule) && Shares(leads, id, other) ==>
              (other in Resolution(leads, mailed, rule).ids <==> other == keeper)
    ensures HasPhone(leads, id) ==> HasPhone(leads, keeper)
  {
    var candidates := Candidates(leads, mailed, rule);
    var kept := Deliverable(leads, candidates);
    var sharing := set other | other in kept && Shares(leads, id, other);
    assert id in sharing;
    keeper := BestSharer(leads, sharing);
    assert IsKeeper(leads, kept, keeper);
    forall other | other in candidates && Shares(leads, id, other)
      ensures other in Resolution(leads, mailed, rule).ids <==> other == keeper
    {
      if other in kept && other != keeper {
        assert Shares(leads, other, keeper) && !Outranks(leads, other, keeper);
      }
      assert other !in Seeds(leads);
    }
  }

  /** A candidate whose primary row names no delivery point competes with nobody. */
  lemma {:induction false} NoPointNoDedupe(leads: Leads, mailed: set<Code>, rule: AudienceRule, id: Id)
    requires id in Candidates(leads, mailed, rule) && PointOf(leads, id).None?
    ensures id in Resolution(leads, mailed, rule).ids <==> IsDeliverable(leads, id)
  {
    var kept := Deliverable(leads, Candidates(leads, mailed, rule));
    assert IsKeeper(leads, kept, id);
    assert id !in Seeds(leads);
  }

  // A capped wave is a stable sample.

  function Ahead(leads: Leads, s: set<Id>, id: Id): set<Id>
    requires s <= leads.Keys && id in leads
  {
    set other | other in s && Before(leads, other, id)
  }

  /** An element's place in the order is the number of elements ahead of it. */
  lemma {:induction false} PlaceIsAhead(leads: Leads, s: set<Id>, i: nat)
    requires s <= leads.Keys && i < |s|
    ensures |Ahead(leads, s, Ranked(leads, s)[i])| == i
  {
    var r := Ranked(leads, s);
    PlaceOf(leads, s, r, i);
  }

  lemma {:induction false} PlaceOf(leads: Leads, s: set<Id>, r: seq<Id>, i: nat)
    requires s <= leads.Keys && i < |r|
    requires forall id :: id in r <==> id in s
    requires forall j, k :: 0 <= j < k < |r| ==> r[j] in leads && r[k] in leads && Before(leads, r[j], r[k])
    ensures r[i] in s && |Ahead(leads, s, r[i])| == i
  {
    assert forall j :: 0 <= j < |r| ==> r[j] in r;
    var ahead := set j | 0 <= j < i :: r[j];
    forall id ensures id in ahead <==> id in Ahead(leads, s, r[i]) {
      if id in Ahead(leads, s, r[i]) {
        var j :| 0 <= j < |r| && r[j] == id;
        assert j < i;
      }
    }
    assert ahead == Ahead(leads, s, r[i]);
    DistinctPrefix(r, i);
  }

  /** The first i elements of a list without repeats are i elements. */
  lemma {:induction false} DistinctPrefix(r: seq<Id>, i: nat)
    requires Distinct(r) && i <= |r|
    ensures |set j | 0 <= j < i :: r[j]| == i
  {
    if i > 0 {
      DistinctPrefix(r, i - 1);
      assert (set j | 0 <= j < i :: r[j]) == (set j | 0 <= j < i - 1 :: r[j]) + {r[i - 1]};
    }
  }

  lemma {:induction false} SampledIffFewAhead(leads: Leads, s: set<Id>, n: nat, id: Id)
    requires s <= leads.Keys && id in s
    ensures id in FirstN(Ranked(leads, s), Some(n)) <==> |Ahead(leads, s, id)| < n
  {
    var r := Ranked(leads, s);
    var i :| 0 <= i < |r| && r[i] == id;
    PlaceIsAhead(leads, s, i);
    var first := FirstN(r, Some(n));
    assert i < n ==> first[i] == id;
    assert forall j :: 0 <= j < |first| ==> first[j] == r[j] && (r[j] == r[i] ==> j == i);
  }

  lemma {:induction false} SubsetSmaller<T>(a: set<T>, b: set<T>)
    requires a <= b
    ensures |a| <= |b|
  {
    assert b == a + (b - a);
  }

  /** Shrinking the population never drops a sampled contact that still matches: a cap takes a prefix
      of one fixed order, so contacts leave the sample only by leaving the population. */
  lemma {:induction false} SampleIsStable(leads: Leads, mailed: set<Code>, wide: AudienceRule, narrow: AudienceRule, id: Id)
    requires wide.limit.Some? && narrow.limit == wide.limit && wide.limit.value >= 1
    requires Population(leads, mailed, narrow) <= Population(leads, mailed, wide)
    requires id in Candidates(leads, mailed, wide) && id in Population(leads, mailed, narrow)
    ensures id in Candidates(leads, mailed, narrow)
  {
    var small, large := Population(leads, mailed, narrow), Population(leads, mailed, wide);
    SampledIffFewAhead(leads, large, wide.limit.value, id);
    SampledIffFewAhead(leads, small, wide.limit.value, id);
    SubsetSmaller(Ahead(leads, small, id), Ahead(leads, large, id));
  }

  // Who is mailed, read off the columns.

  /** The columns a rule reads, clause by clause: what no rule can lift, then each key that is present. */
  ghost predicate RuleReaches(leads: Leads, mailed: set<Code>, rule: AudienceRule, id: Id) {
    && id in leads && !leads[id].isSeed
    && !leads[id].doNotMail && !leads[id].addressUndeliverable && leads[id].stage != Suppressed
    && KeysReach(rule, leads[id])
    && (rule.stage.Some? ==> leads[id].stage in rule.stage.value)
    && (rule.notRespondedTo.Some? ==>
          && (leads[id].stage == Prospect || leads[id].stage == InSequence)
          && exists piece :: piece in mailed && piece.wave == rule.notRespondedTo.value && piece.contact == id)
  }

  /** The six keys over the contact's own columns. */
  ghost predicate KeysReach(rule: AudienceRule, lead: Addressee) {
    && (rule.segment.None? || (lead.segment.Some? && lead.segment.value in rule.segment.value))
    && (rule.trade.None? || exists trade :: trade in lead.trades && trade in rule.trade.value)
    && (rule.source.None? || (lead.source.Some? && lead.source.value in rule.source.value))
    && (rule.city.None? || (lead.city.Some? && exists city :: city in rule.city.value && Lower(city) == Lower(lead.city.value)))
    && (rule.zipPrefix.None? || (lead.zip.Some? && exists band :: band in rule.zipPrefix.value && Like(lead.zip.value, Strip(band) + "%")))
    && (rule.areaCode.None? || (lead.phone.Some? && exists code :: code in rule.areaCode.value && HasArea(lead.phone.value, Strip(code))))
  }

  /** The third to fifth characters, as far as there are any. */
  ghost predicate HasArea(phone: string, code: string) {
    && |code| == (if |phone| >= 5 then 3 else if |phone| >= 2 then |phone| - 2 else 0)
    && forall i :: 0 <= i < |code| ==> code[i] == phone[i + 2]
  }

  /** Those of the rule's contacts that the sample's order puts before this one. */
  ghost function EarlierInSample(leads: Leads, mailed: set<Code>, rule: AudienceRule, id: Id): set<Id>
    requires id in leads
  {
    set other | other in leads && RuleReaches(leads, mailed, rule, other)
                && (leads[other].shuffle < leads[id].shuffle || (leads[other].shuffle == leads[id].shuffle && other < id))
  }

  /** In the rule, and within its cap if it has one. */
  ghost predicate IsSampled(leads: Leads, mailed: set<Code>, rule: AudienceRule, id: Id) {
    && RuleReaches(leads, mailed, rule, id)
    && (rule.limit.Some? ==> |EarlierInSample(leads, mailed, rule, id)| < rule.limit.value)
  }

  ghost predicate CanReceive(lead: Addressee) {
    lead.primary.None? || lead.primary.value.verdict.None? || lead.primary.value.verdict.value != "undeliverable"
  }

  /** Two primary rows name one non-empty delivery point. */
  ghost predicate AtOnePoint(a: Addressee, b: Addressee) {
    && a.primary.Some? && b.primary.Some? && a.primary.value.point.Some? && b.primary.value.point.Some?
    && a.primary.value.point.value == b.primary.value.point.value && a.primary.value.point.value != ""
  }

  /** Another deliverable member of the sample at this point comes first: with a phone where this one has
      none, or else with the lower id. */
  ghost predicate LosesThePoint(leads: Leads, mailed: set<Code>, rule: AudienceRule, id: Id)
    requires id in leads
  {
    exists other: Id :: IsSampled(leads, mailed, rule, other) && CanReceive(leads[other]) && AtOnePoint(leads[id], leads[other])
                    && (if leads[id].phone.Some? == leads[other].phone.Some? then other < id else leads[other].phone.Some?)
  }

  lemma {:induction false} SelectedIsReached(leads: Leads, mailed: set<Code>, rule: AudienceRule, id: Id)
    requires id in leads
    ensures Selects(rule, mailed, id, leads[id]) <==> RuleReaches(leads, mailed, rule, id)
  {
    var lead := leads[id];
    TradesReach(lead.trades, rule.trade);
    CityReaches(lead.city, rule.city);
    ZipReaches(lead.zip, rule.zipPrefix);
    AreaReaches(lead.phone, rule.areaCode);
    if rule.notRespondedTo.Some? {
      assert forall piece: Code :: piece.wave == rule.notRespondedTo.value && piece.contact == id
                                   <==> piece == Code(rule.notRespondedTo.value, id);
    }
  }

  lemma {:induction false} TradesReach(trades: set<string>, allowed: Option<seq<string>>)
    ensures TradeMatches(trades, allowed) <==> allowed.None? || exists trade :: trade in trades && trade in allowed.value
  {
    if allowed.Some? && exists trade :: trade in trades && trade in allowed.value {
      var trade :| trade in trades && trade in allowed.value;
      var i :| 0 <= i < |allowed.value| && allowed.value[i] == trade;
    }
  }

  lemma {:induction false} CityReaches(city: Option<string>, allowed: Option<seq<string>>)
    ensures CityMatches(city, allowed)
            <==> allowed.None? || (city.Some? && exists name :: name in allowed.value && Lower(name) == Lower(city.value))
  {
    if allowed.Some? && city.Some? && exists name :: name in allowed.value && Lower(name) == Lower(city.value) {
      var name :| name in allowed.value && Lower(name) == Lower(city.value);
      var i :| 0 <= i < |allowed.value| && allowed.value[i] == name;
    }
  }

  lemma {:induction false} ZipReaches(zip: Option<string>, allowed: Option<seq<string>>)
    ensures ZipMatches(zip, allowed)
            <==> allowed.None? || (zip.Some? && exists band :: band in allowed.value && Like(zip.value, Strip(band) + "%"))
  {
    if allowed.Some? && zip.Some? && exists band :: band in allowed.value && Like(zip.value, Strip(band) + "%") {
      var band :| band in allowed.value && Like(zip.value, Strip(band) + "%");
      var i :| 0 <= i < |allowed.value| && allowed.value[i] == band;
    }
  }

  lemma {:induction false} AreaReaches(phone: Option<string>, allowed: Option<seq<string>>)
    ensures AreaMatches(phone, allowed)
            <==> allowed.None? || (phone.Some? && exists code :: code in allowed.value && HasArea(phone.value, Strip(code)))
  {
    if allowed.Some? && phone.Some? {
      forall code: string ensures HasArea(phone.value, code) <==> AreaCode(phone.value) == code {
      }
      if exists code :: code in allowed.value && HasArea(phone.value, Strip(code)) {
        var code :| code in allowed.value && HasArea(phone.value, Strip(code));
        var i :| 0 <= i < |allowed.value| && allowed.value[i] == code;
      }
    }
  }

  lemma {:induction false} PopulationIsReached(leads: Leads, mailed: set<Code>, rule: AudienceRule, id: Id)
    ensures id in Population(leads, mailed, rule) <==> RuleReaches(leads, mailed, rule, id)
  {
    if id in leads {
      SelectedIsReached(leads, mailed, rule, id);
    }
  }

  lemma {:induction false} CandidateIsSampled(leads: Leads, mailed: set<Code>, rule: AudienceRule, id: Id)
    ensures id in Candidates(leads, mailed, rule) <==> IsSampled(leads, mailed, rule, id)
  {
    var population := Population(leads, mailed, rule);
    PopulationIsReached(leads, mailed, rule, id);
    if id in population && rule.limit.Some? && rule.limit.value >= 0 {
      SampledIffFewAhead(leads, population, rule.limit.value, id);
      forall other: Id ensures other in Ahead(leads, population, id) <==> other in EarlierInSample(leads, mailed, rule, id) {
        PopulationIsReached(leads, mailed, rule, other);
      }
      assert Ahead(leads, population, id) == EarlierInSample(leads, mailed, rule, id);
    }
  }

  /** What the two trims leave, over any description of the candidates. */
  lemma {:induction false} ResolvedAreKept(leads: Leads, mailed: set<Code>, rule: AudienceRule, id: Id)
    ensures id in Resolution(leads, mailed, rule).ids
            <==> (id in leads && leads[id].isSeed)
                 || (id in Candidates(leads, mailed, rule) && IsDeliverable(leads, id)
                     && IsKeeper(leads, Deliverable(leads, Candidates(leads, mailed, rule)), id))
  {
  }

  /** The kept are the sampled contacts at a deliverable address. */
  ghost predicate AreReceivers(leads: Leads, mailed: set<Code>, rule: AudienceRule, kept: seq<Id>) {
    forall id: Id :: id in kept <==> IsSampled(leads, mailed, rule, id) && CanReceive(leads[id])
  }

  lemma {:induction false} KeptAreReceivers(leads: Leads, mailed: set<Code>, rule: AudienceRule)
    ensures AreReceivers(leads, mailed, rule, Deliverable(leads, Candidates(leads, mailed, rule)))
  {
    forall id: Id
      ensures id in Deliverable(leads, Candidates(leads, mailed, rule))
              <==> IsSampled(leads, mailed, rule, id) && CanReceive(leads[id])
    {
      CandidateIsSampled(leads, mailed, rule, id);
    }
  }

  lemma {:induction false} KeeperKeepsPoint(leads: Leads, mailed: set<Code>, rule: AudienceRule, kept: seq<Id>, id: Id)
    requires AreReceivers(leads, mailed, rule, kept) && id in leads
    ensures IsKeeper(leads, kept, id) <==> !LosesThePoint(leads, mailed, rule, id)
  {
    forall other | other in leads ensures AtOnePoint(leads[id], leads[other]) <==> Shares(leads, id, other) {
    }
  }

  /** Whom a rule mails, by columns alone: every seed, and exactly the sampled contacts at a
      deliverable address that lose their delivery point to nobody. */
  lemma {:induction false} MailsExactly(leads: Leads, mailed: set<Code>, rule: AudienceRule, id: Id)
    ensures id in Resolution(leads, mailed, rule).ids
            <==> id in leads && (leads[id].isSeed || (&& IsSampled(leads, mailed, rule, id) && CanReceive(leads[id])
                                                      && !LosesThePoint(leads, mailed, rule, id)))
  {
    ResolvedAreKept(leads, mailed, rule, id);
    CandidateIsSampled(leads, mailed, rule, id);
    if id in leads {
      KeptAreReceivers(leads, mailed, rule);
      KeeperKeepsPoint(leads, mailed, rule, Deliverable(leads, Candidates(leads, mailed, rule)), id);
    }
  }

  lemma {:induction false} RejectedCount<T(!new)>(s: seq<T>, p: T -> bool, rejected: set<T>)
    requires Distinct(s) && forall x :: x in rejected <==> x in s && !p(x)
    ensures |s| - |Filter(s, p)| == |rejected|
  {
    FilterSplits(s, p);
    assert (set x | x in s && !p(x)) == rejected;
  }

  ghost function UnreachableOf(leads: Leads, mailed: set<Code>, rule: AudienceRule): set<Id> {
    set id | id in leads && IsSampled(leads, mailed, rule, id) && !CanReceive(leads[id])
  }

  ghost function TwinsOf(leads: Leads, mailed: set<Code>, rule: AudienceRule): set<Id> {
    set id | id in leads && IsSampled(leads, mailed, rule, id) && CanReceive(leads[id]) && LosesThePoint(leads, mailed, rule, id)
  }

  /** The two counts a preview reports: the sampled contacts at an undeliverable address, and the
      deliverable ones that lose their point. */
  lemma {:induction false} TrimsCount(leads: Leads, mailed: set<Code>, rule: AudienceRule)
    ensures Resolution(leads, mailed, rule).excluded == |UnreachableOf(leads, mailed, rule)|
    ensures Resolution(leads, mailed, rule).deduped == |TwinsOf(leads, mailed, rule)|
  {
    var candidates := Candidates(leads, mailed, rule);
    var kept := Deliverable(leads, candidates);
    CandidatesDistinct(leads, mailed, rule);
    KeptAreReceivers(leads, mailed, rule);
    forall id: Id ensures id in UnreachableOf(leads, mailed, rule) <==> id in candidates && !DeliverableTest(leads)(id) {
      CandidateIsSampled(leads, mailed, rule, id);
    }
    RejectedCount(candidates, DeliverableTest(leads), UnreachableOf(leads, mailed, rule));
    FilterKeepsDistinct(candidates, DeliverableTest(leads));
    KeepersCount(leads, mailed, rule, kept);
  }

  lemma {:induction false} KeepersCount(leads: Leads, mailed: set<Code>, rule: AudienceRule, kept: seq<Id>)
    requires AreReceivers(leads, mailed, rule, kept) && Distinct(kept)
    ensures |kept| - |Keepers(leads, kept)| == |TwinsOf(leads, mailed, rule)|
  {
    forall id: Id ensures id in TwinsOf(leads, mailed, rule) <==> id in kept && !KeeperTest(leads, kept)(id) {
      if id in leads {
        KeeperKeepsPoint(leads, mailed, rule, kept, id);
      }
    }
    RejectedCount(kept, KeeperTest(leads, kept), TwinsOf(leads, mailed, rule));
  }

  /** Nobody but a seed is mailed against a do-not-mail flag, a failed address, an opt-out or an
      undeliverable primary row; a rule without keys and without a cap reaches everyone else. */
  lemma {:induction false} OnlyMailableAreMailed(leads: Leads, mailed: set<Code>, rule: AudienceRule, id: Id)
    requires id in leads && !leads[id].isSeed
    ensures id in Resolution(leads, mailed, rule).ids ==>
              && !leads[id].doNotMail && !leads[id].addressUndeliverable && leads[id].stage != Suppressed
              && (leads[id].primary.Some? ==> leads[id].primary.value.verdict != Some("undeliverable"))
              && KeysReach(rule, leads[id])
              && (rule.stage.Some? ==> leads[id].stage in rule.stage.value)
    ensures rule == AudienceRule() ==>
              (id in Candidates(leads, mailed, rule)
               <==> !leads[id].doNotMail && !leads[id].addressUndeliverable && leads[id].stage != Suppressed)
  {
    SelectedIsReached(leads, mailed, rule, id);
  }

  lemma {:induction false} FilterKeepsOrder(s: seq<Id>, p: Id -> bool, first: (Id, Id) -> bool)
    requires forall i, j :: 0 <= i < j < |s| ==> first(s[i], s[j])
    ensures forall i, j :: 0 <= i < j < |Filter(s, p)| ==> first(Filter(s, p)[i], Filter(s, p)[j])
  {
    if s != [] {
      var front := s[..|s| - 1];
      FilterKeepsOrder(front, p, first);
      forall i | 0 <= i < |Filter(front, p)| ensures first(Filter(front, p)[i], s[|s| - 1]) {
        assert Filter(front, p)[i] in front;
      }
    }
  }

  /** What comes first in an audience: the lower id, or under a cap the lower hash and then the lower id. */
  ghost predicate ComesFirst(leads: Leads, rule: AudienceRule, a: Id, b: Id) {
    && a in leads && b in leads
    && (if rule.limit.None? || leads[a].shuffle == leads[b].shuffle then a < b else leads[a].shuffle < leads[b].shuffle)
  }

  ghost function Order(leads: Leads, rule: AudienceRule): (Id, Id) -> bool {
    (a: Id, b: Id) => ComesFirst(leads, rule, a, b)
  }

  ghost predicate InOrder(leads: Leads, rule: AudienceRule, s: seq<Id>) {
    forall i, j :: 0 <= i < j < |s| ==> ComesFirst(leads, rule, s[i], s[j])
  }

  lemma {:induction false} ChosenInOrder(leads: Leads, rule: AudienceRule, s: seq<Id>, p: Id -> bool)
    requires InOrder(leads, rule, s)
    ensures InOrder(leads, rule, Filter(s, p))
  {
    assert forall a, b :: Order(leads, rule)(a, b) == ComesFirst(leads, rule, a, b);
    FilterKeepsOrder(s, p, Order(leads, rule));
  }

  lemma {:induction false} CandidatesInOrder(leads: Leads, mailed: set<Code>, rule: AudienceRule)
    ensures InOrder(leads, rule, Candidates(leads, mailed, rule))
  {
    var r := Candidates(leads, mailed, rule);
    assert forall i :: 0 <= i < |r| ==> r[i] in r;
  }

  /** The audience is in that order, the seeds after it in order of id. */
  lemma {:induction false} AudienceInOrder(leads: Leads, mailed: set<Code>, rule: AudienceRule) returns (mail: seq<Id>, seeds: seq<Id>)
    ensures Resolution(leads, mailed, rule).ids == mail + seeds
    ensures InOrder(leads, rule, mail) && IsAscending(seeds)
    ensures forall id :: id in seeds <==> id in leads && leads[id].isSeed
  {
    var candidates := Candidates(leads, mailed, rule);
    CandidatesInOrder(leads, mailed, rule);
    ChosenInOrder(leads, rule, candidates, DeliverableTest(leads));
    ChosenInOrder(leads, rule, Deliverable(leads, candidates), KeeperTest(leads, Deliverable(leads, candidates)));
    mail, seeds := Keepers(leads, Deliverable(leads, candidates)), Seeds(leads);
  }
}
