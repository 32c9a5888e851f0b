/** Bulk intake: accept the rows of a file, group them, attach or create (service/contacts.py, load_list). */
module Intake {
  import opened Types
  import opened Identity

  datatype Contact = Contact(lead: Lead, isSeed: bool, doNotText: bool, doNotCall: bool)

  /** One intake row as stored: the row verbatim, its contact, and whether it is the primary one. */
  datatype Filing = Filing(row: Row, contact: Id, isPrimary: bool)

  datatype Book = Book(contacts: map<Id, Contact>, intake: map<Slot, Filing>, tombs: set<Tombstone>, events: seq<Event>, next: Id)

  /** A parsed line of the file. Without a segment it is untargetable. */
  datatype Line = Line(
    key: Option<Id>,
    phone: Option<string>,
    name: Option<string>,
    person: Option<string>,
    email: Option<string>,
    address: Address,
    line2: Option<string>,
    segment: Option<string>,
    doNotMail: bool)

  datatype Failure = UnknownSource | MissingKey

  datatype Report = Report(loaded: nat, deduped: nat, invalid: nat, suppressed: nat)

  // Accepting rows.

  function RowOf(line: Line, source: string): Row
    requires line.key.Some? && line.segment.Some?
  {
    Row(line.key.value, source, line.phone, line.name, line.person, line.email, line.address, line.line2,
        line.segment.value, line.doNotMail)
  }

  function Keys(rows: seq<Row>): set<Id> {
    set r | r in rows :: r.key
  }

  predicate IsAccepted(taken: set<Id>, before: seq<Row>, line: Line) {
    line.segment.Some? && line.key.Some? && line.key.value !in taken && line.key.value !in Keys(before)
  }

  /** The targetable rows whose key is neither in the table nor earlier in the file. */
  function Accepted(taken: set<Id>, lines: seq<Line>, source: string): (r: seq<Row>)
    ensures forall row :: row in r ==> row.source == source && row.key !in taken
    ensures forall i, j :: 0 <= i < j < |r| ==> r[i].key != r[j].key
    ensures forall row :: row in r ==>
              exists i :: 0 <= i < |lines| && lines[i].key.Some? && lines[i].segment.Some? && row == RowOf(lines[i], source)
  {
    if lines == [] then [] else
    var front, last := lines[..|lines| - 1], lines[|lines| - 1];
    var rest := Accepted(taken, front, source);
    assert forall i :: 0 <= i < |front| ==> lines[i] == front[i];
    if IsAccepted(taken, rest, last) then
      assert forall i :: 0 <= i < |rest| ==> rest[i] in rest && rest[i].key in Keys(rest);
      rest + [RowOf(last, source)]
    else rest
  }

  /** How many lines have no segment. */
  function Untargetable(lines: seq<Line>): nat {
    if lines == [] then 0
    else Untargetable(lines[..|lines| - 1]) + if lines[|lines| - 1].segment.None? then 1 else 0
  }

  function Taken(b: Book, family: Family): set<Id> {
    set s | s in b.intake && s.family == family :: s.key
  }

  /** An accepted row without a key fails its insert, and with it the whole file. */
  predicate LacksKey(lines: seq<Line>) {
    exists i :: 0 <= i < |lines| && lines[i].segment.Some? && lines[i].key.None?
  }

  // Resolving one group.

  predicate IsHolder(b: Book, id: Id, phone: Option<string>) {
    id in b.contacts && !b.contacts[id].isSeed && phone.Some? && b.contacts[id].lead.phone == phone
  }

  function Holders(b: Book, phone: Option<string>): set<Id> {
    set id | id in b.contacts && IsHolder(b, id, phone)
  }

  predicate Recalls(t: Tombstone, r: Row) {
    (t.phone.Some? && t.phone == r.phone) || (t.listKey.Some? && t.listKey.value == r.key)
  }

  predicate IsRecalled(b: Book, group: set<Row>, channel: Channel) {
    exists t, r :: t in b.tombs && r in group && Recalls(t, r) && t.channel == channel
  }

  ghost function NewContact(b: Book, group: set<Row>): Contact
    requires group != {}
  {
    var lead := LeadFor(group);
    Contact(lead.(doNotMail := lead.doNotMail || IsRecalled(b, group, Mail)), false,
            IsRecalled(b, group, Sms), IsRecalled(b, group, Voice))
  }

  /** The one field an attach writes. */
  function Attached(c: Contact, group: set<Row>): Contact {
    c.(lead := c.lead.(doNotMail := c.lead.doNotMail || AnyDoNotMail(group)))
  }

  function SuppressedEvent(id: Id, now: Time): Event {
    Event(Some(id), None, System, ContactSuppressed, now, None, Payload(reason := Some("do_not_mail")))
  }

  /** The intake rows of a group, each with the contact it resolved to, and the suppression facts. */
  function Filed(b: Book, group: seq<Row>, id: Id, primary: Option<Id>, now: Time): (r: Book)
    requires forall i :: 0 <= i < |group| ==> HasTable(group[i])
    ensures r == b.(intake := r.intake, events := r.events)
  {
    if group == [] then b else
    var front, last := group[..|group| - 1], group[|group| - 1];
    var rest := Filed(b, front, id, primary, now);
    rest.(intake := rest.intake[SlotOf(last) := Filing(last, id, primary == Some(last.key))],
          events := if last.doNotMail then rest.events + [SuppressedEvent(id, now)] else rest.events)
  }

  /** A group as `_group` makes one: registered rows of one family and phone, each with its own key. */
  ghost predicate IsFileGroup(group: seq<Row>) {
    && group != [] && Distinct(group) && IsGroup(Rows(group))
    && (forall r :: r in group ==> HasTable(r) && FamilyOf(r.source) == FamilyOf(group[0].source))
    && (forall r :: r in group ==> LeadPhone(r) == LeadPhone(group[0]))
  }

  /** Attach to the holder of the group's phone, or create a contact from the group's picks. */
  ghost function Settle(b: Book, group: seq<Row>, now: Time): (r: Book)
    requires IsFileGroup(group)
  {
    var holders := Holders(b, LeadPhone(group[0]));
    if holders != {} then
      var id := MinOf(holders);
      Filed(b.(contacts := b.contacts[id := Attached(b.contacts[id], Rows(group))]), group, id, None, now)
    else
      Filed(b.(contacts := b.contacts[b.next := NewContact(b, Rows(group))], next := b.next + 1),
            group, b.next, Some(Winner(Rows(group)).key), now)
  }

  ghost predicate AreFileGroups(groups: seq<seq<Row>>) {
    forall i :: 0 <= i < |groups| ==> IsFileGroup(groups[i])
  }

  ghost function SettleAll(b: Book, groups: seq<seq<Row>>, now: Time): Book
    requires AreFileGroups(groups)
  {
    if groups == [] then b else Settle(SettleAll(b, groups[..|groups| - 1], now), groups[|groups| - 1], now)
  }

  /** The groups are the businesses of the rows, each row in one of them. */
  ghost predicate IsPartition(groups: seq<seq<Row>>, rows: set<Row>) {
    && (forall i :: 0 <= i < |groups| ==> groups[i] != [] && Distinct(groups[i]))
    && (forall i, r :: 0 <= i < |groups| && r in groups[i] ==> r in rows && Rows(groups[i]) == GroupOf(rows, r))
    && (forall r :: r in rows ==> exists i :: 0 <= i < |groups| && r in groups[i])
    && (forall i, j :: 0 <= i < j < |groups| ==> Rows(groups[i]) !! Rows(groups[j]))
  }

  lemma {:induction false} PartitionGroups(groups: seq<seq<Row>>, rows: set<Row>, family: Family)
    requires AreRows(rows) && IsPartition(groups, rows) && forall r :: r in rows ==> FamilyOf(r.source) == Some(family)
    ensures AreFileGroups(groups)
  {
    forall i | 0 <= i < |groups| ensures IsFileGroup(groups[i]) {
      assert groups[i][0] in groups[i];
      GroupIsGroup(rows, groups[i][0]);
      assert forall r :: r in groups[i] ==> r in Rows(groups[i]);
    }
  }

  // The loops.

  class Ledger {
    var contacts: map<Id, Contact>
    var intake: map<Slot, Filing>
    var tombs: set<Tombstone>
    var events: seq<Event>
    var next: Id

    function Value(): Book
      reads this
    {
      Book(contacts, intake, tombs, events, next)
    }

    constructor (b: Book)
      ensures Value() == b
    {
      contacts, intake, tombs, events, next := b.contacts, b.intake, b.tombs, b.events, b.next;
    }

    /** One file, in one transaction. `groups` is how its accepted rows fell into businesses. */
    method LoadList(lines: seq<Line>, source: string, now: Time)
      returns (r: Option<Failure>, report: Report, ghost groups: seq<seq<Row>>)
      modifies this
      ensures !IsKnownSource(source) <==> r == Some(UnknownSource)
      ensures IsKnownSource(source) ==> (LacksKey(lines) <==> r == Some(MissingKey))
      ensures r.Some? ==> Value() == old(Value())
      ensures r.None? ==>
                var rows := Accepted(Taken(old(Value()), FamilyOf(source).value), lines, source);
                && report.loaded == |rows| && report.invalid == Untargetable(lines)
                && report.loaded + report.deduped + report.invalid == |lines|
                && report.suppressed == |events| - old(|events|)
                && IsPartition(groups, Rows(rows)) && AreFileGroups(groups)
                && Value() == SettleAll(old(Value()), groups, now)
    {
      report, groups := Report(0, 0, 0, 0), [];
      if !IsKnownSource(source) {
        return Some(UnknownSource), report, [];
      }
      var family := FamilyOf(source).value;
      if LacksKey(lines) {
        return Some(MissingKey), report, [];
      }
      var rows, deduped, invalid := Accept(Taken(Value(), family), lines, source);
      AcceptedAreRows(Taken(Value(), family), lines, source, family);
      var found := GroupRows(rows, family);
      PartitionGroups(found, Rows(rows), family);
      var suppressed := LoadGroups(found, now);
      return None, Report(|rows|, deduped, invalid, suppressed), found;
    }

    method LoadGroups(groups: seq<seq<Row>>, now: Time) returns (suppressed: nat)
      requires AreFileGroups(groups)
      modifies this
      ensures Value() == SettleAll(old(Value()), groups, now) && suppressed == |events| - old(|events|)
    {
      ghost var b := Value();
      suppressed := 0;
      var i := 0;
      while i < |groups|
        invariant 0 <= i <= |groups|
        invariant Value() == SettleAll(b, groups[..i], now) && suppressed == |events| - |b.events|
      {
        assert groups[..i + 1][..i] == groups[..i];
        var n := LoadGroup(groups[i], now);
        suppressed := suppressed + n;
        i := i + 1;
      }
      assert groups[..|groups|] == groups;
    }

    /** Resolve, then insert. */
    method LoadGroup(group: seq<Row>, now: Time) returns (suppressed: nat)
      requires IsFileGroup(group)
      modifies this
      ensures Value() == Settle(old(Value()), group, now) && suppressed == |events| - old(|events|)
    {
      var id, primary := ResolveGroup(group);
      suppressed := InsertRows(group, id, primary, now);
    }

    method ResolveGroup(group: seq<Row>) returns (id: Id, primary: Option<Id>)
      requires IsFileGroup(group)
      modifies this`contacts, this`next
      ensures var holders := Holders(old(Value()), LeadPhone(group[0]));
              if holders != {} then
                && id == MinOf(holders) && primary == None && next == old(next)
                && contacts == old(contacts)[id := Attached(old(contacts)[id], Rows(group))]
              else
                && id == old(next) && next == old(next) + 1 && primary == Some(Winner(Rows(group)).key)
                && contacts == old(contacts)[id := NewContact(old(Value()), Rows(group))]
    {
      var phone := LeadPhone(group[0]);
      var holders := Holders(Value(), phone);
      if holders != {} {
        id := MinOf(holders);
        SuppressIfAny(group, id);
        return id, None;
      }
      var w := PickWinner(group);
      var email := CoalesceEmail(group, w);
      var suppressed := exists r :: r in group && r.doNotMail;
      var mail := Consult(group, Mail);
      var sms := Consult(group, Sms);
      var voice := Consult(group, Voice);
      id := next;
      contacts := contacts[id := Contact(
        Lead(phone, w.name, w.person, email, w.address, w.line2, w.segment, w.source, suppressed || mail), false, sms, voice)];
      next := next + 1;
      primary := Some(w.key);
      assert suppressed == AnyDoNotMail(Rows(group));
      assert phone == LeadPhone(w);
    }

    /** The absorbing do-not-mail merge. */
    method SuppressIfAny(group: seq<Row>, id: Id)
      requires id in contacts
      modifies this`contacts
      ensures contacts == old(contacts)[id := Attached(old(contacts)[id], Rows(group))]
    {
      if exists r :: r in group && r.doNotMail {
        assert AnyDoNotMail(Rows(group));
        contacts := contacts[id := contacts[id].(lead := contacts[id].lead.(doNotMail := true))];
      } else {
        assert !AnyDoNotMail(Rows(group));
        assert contacts == contacts[id := contacts[id]];
      }
    }

    /** Whether a tombstone of the channel matches a member's phone or key. */
    method Consult(group: seq<Row>, channel: Channel) returns (found: bool)
      ensures found == IsRecalled(Value(), Rows(group), channel)
    {
      found := false;
      var i := 0;
      while i < |group|
        invariant 0 <= i <= |group|
        invariant found == IsRecalled(Value(), Rows(group[..i]), channel)
      {
        assert group[..i + 1] == group[..i] + [group[i]];
        assert forall r :: r in Rows(group[..i + 1]) <==> r in Rows(group[..i]) || r == group[i];
        found := found || exists t :: t in tombs && Recalls(t, group[i]) && t.channel == channel;
        i := i + 1;
      }
      assert group[..|group|] == group;
    }

    method InsertRows(group: seq<Row>, id: Id, primary: Option<Id>, now: Time) returns (suppressed: nat)
      requires forall i :: 0 <= i < |group| ==> HasTable(group[i])
      modifies this`intake, this`events
      ensures Value() == Filed(old(Value()), group, id, primary, now) && suppressed == |events| - old(|events|)
    {
      ghost var b := Value();
      suppressed := 0;
      var i := 0;
      while i < |group|
        invariant 0 <= i <= |group|
        invariant Value() == Filed(b, group[..i], id, primary, now) && suppressed == |events| - |b.events|
      {
        assert group[..i + 1][..i] == group[..i];
        var member := group[i];
        intake := intake[SlotOf(member) := Filing(member, id, primary == Some(member.key))];
        if member.doNotMail {
          events := events + [SuppressedEvent(id, now)];
          suppressed := suppressed + 1;
        }
        i := i + 1;
      }
      assert group[..|group|] == group;
    }
  }

  method Accept(taken: set<Id>, lines: seq<Line>, source: string) returns (rows: seq<Row>, deduped: nat, invalid: nat)
    requires !LacksKey(lines)
    ensures rows == Accepted(taken, lines, source)
    ensures invalid == Untargetable(lines) && |rows| + deduped + invalid == |lines|
  {
    rows, deduped, invalid := [], 0, 0;
    var seen: set<Id> := {};
    var i := 0;
    while i < |lines|
      invariant 0 <= i <= |lines|
      invariant rows == Accepted(taken, lines[..i], source) && seen == Keys(rows)
      invariant invalid == Untargetable(lines[..i]) && |rows| + deduped + invalid == i
    {
      assert lines[..i + 1][..i] == lines[..i];
      var line := lines[i];
      if line.segment.None? {
        invalid := invalid + 1;
      } else if line.key.value in taken || line.key.value in seen {
        deduped := deduped + 1;
      } else {
        seen := seen + {line.key.value};
        rows := rows + [RowOf(line, source)];
      }
      i := i + 1;
    }
    assert lines[..|lines|] == lines;
  }

  lemma {:induction false} AcceptedAreRows(taken: set<Id>, lines: seq<Line>, source: string, family: Family)
    requires FamilyOf(source) == Some(family)
    ensures var rows := Accepted(taken, lines, source);
            && Distinct(rows) && AreRows(Rows(rows))
            && forall r :: r in Rows(rows) ==> FamilyOf(r.source) == Some(family)
  {
    var rows := Accepted(taken, lines, source);
    forall r, q | r in Rows(rows) && q in Rows(rows) && SlotOf(r) == SlotOf(q) ensures r == q {
      var i :| 0 <= i < |rows| && rows[i] == r;
      var j :| 0 <= j < |rows| && rows[j] == q;
      assert i == j;
    }
  }

  /** _group: the rows without a phone, then one group per phone; filings are never grouped. */
  method GroupRows(rows: seq<Row>, family: Family) returns (groups: seq<seq<Row>>)
    requires Distinct(rows) && forall r :: r in rows ==> FamilyOf(r.source) == Some(family)
    ensures IsPartition(groups, Rows(rows))
  {
    groups := [];
    var byPhone: map<string, nat> := map[];
    var i := 0;
    while i < |rows|
      invariant 0 <= i <= |rows|
      invariant IsPartition(groups, Rows(rows[..i]))
      invariant IsIndex(groups, byPhone, rows[..i])
    {
      var row := rows[i];
      var phone := LeadPhone(row);
      ghost var before := rows[..i];
      assert rows[..i + 1] == before + [row] && row !in before;
      if phone.Some? && phone.value in byPhone {
        var at := byPhone[phone.value];
        JoinGroup(groups, before, row, at);
        JoinIndex(groups, byPhone, before, row, at);
        groups := groups[at := groups[at] + [row]];
      } else {
        NewGroup(groups, before, row);
        NewIndex(groups, byPhone, before, row);
        if phone.Some? {
          byPhone := byPhone[phone.value := |groups|];
        }
        groups := groups + [[row]];
      }
      i := i + 1;
    }
    assert rows[..|rows|] == rows;
  }

  /** `byPhone` finds the group of each phone seen. */
  ghost predicate IsIndex(groups: seq<seq<Row>>, byPhone: map<string, nat>, before: seq<Row>) {
    && (forall p :: p in byPhone ==> byPhone[p] < |groups|)
    && (forall p, r :: p in byPhone && r in before ==> (r in groups[byPhone[p]] <==> LeadPhone(r) == Some(p)))
    && (forall r :: r in before && LeadPhone(r).Some? ==> LeadPhone(r).value in byPhone)
  }

  lemma {:induction false} JoinIndex(groups: seq<seq<Row>>, byPhone: map<string, nat>, before: seq<Row>, row: Row, at: nat)
    requires IsPartition(groups, Rows(before)) && IsIndex(groups, byPhone, before) && row !in before
    requires LeadPhone(row).Some? && LeadPhone(row).value in byPhone && at == byPhone[LeadPhone(row).value]
    ensures IsIndex(groups[at := groups[at] + [row]], byPhone, before + [row])
  {
    var after := groups[at := groups[at] + [row]];
    forall p, r | p in byPhone && r in before + [row] ensures r in after[byPhone[p]] <==> LeadPhone(r) == Some(p) {
      var first := groups[byPhone[p]][0];
      assert first in groups[byPhone[p]] && first in Rows(before);
      assert LeadPhone(first) == Some(p);
      if r == row {
        assert row in groups[byPhone[p]] ==> row in Rows(before);
      } else {
        assert r in before;
      }
    }
  }

  lemma {:induction false} NewIndex(groups: seq<seq<Row>>, byPhone: map<string, nat>, before: seq<Row>, row: Row)
    requires IsPartition(groups, Rows(before)) && IsIndex(groups, byPhone, before) && row !in before
    requires LeadPhone(row).Some? ==> LeadPhone(row).value !in byPhone
    ensures IsIndex(groups + [[row]], if LeadPhone(row).Some? then byPhone[LeadPhone(row).value := |groups|] else byPhone,
                    before + [row])
  {
    var after := groups + [[row]];
    var index := if LeadPhone(row).Some? then byPhone[LeadPhone(row).value := |groups|] else byPhone;
    forall p, r | p in index && r in before + [row] ensures r in after[index[p]] <==> LeadPhone(r) == Some(p) {
      if r == row && p in byPhone && LeadPhone(row) != Some(p) {
        assert row in groups[byPhone[p]] ==> row in Rows(before);
      }
    }
  }

  lemma {:induction false} GroupGrows(before: seq<Row>, row: Row, r: Row)
    requires row !in before
    ensures GroupOf(Rows(before + [row]), r)
            == GroupOf(Rows(before), r) + (if LeadPhone(r).Some? && LeadPhone(row) == LeadPhone(r) then {row} else {})
  {
  }

  lemma {:induction false} JoinGroup(groups: seq<seq<Row>>, before: seq<Row>, row: Row, at: nat)
    requires IsPartition(groups, Rows(before)) && row !in before && at < |groups| && LeadPhone(row).Some?
    requires forall r :: r in before ==> (r in groups[at] <==> LeadPhone(r) == LeadPhone(row))
    ensures IsPartition(groups[at := groups[at] + [row]], Rows(before + [row]))
  {
    var after := groups[at := groups[at] + [row]];
    forall i | 0 <= i < |groups| ensures row !in groups[i] {
      assert row in groups[i] ==> row in Rows(before);
    }
    forall i, r | 0 <= i < |after| && r in after[i]
      ensures r in Rows(before + [row]) && Rows(after[i]) == GroupOf(Rows(before + [row]), r)
    {
      JoinedGroup(groups, before, row, at, i, r);
    }
    forall r | r in Rows(before + [row]) ensures exists i :: 0 <= i < |after| && r in after[i] {
      if r == row {
        assert row in after[at];
      } else {
        assert r in Rows(before);
        var i :| 0 <= i < |groups| && r in groups[i];
        assert r in after[i];
      }
    }
  }

  lemma {:induction false} JoinedGroup(groups: seq<seq<Row>>, before: seq<Row>, row: Row, at: nat, i: nat, r: Row)
    requires IsPartition(groups, Rows(before)) && row !in before && at < |groups| && LeadPhone(row).Some? && i < |groups|
    requires forall q :: q in before ==> (q in groups[at] <==> LeadPhone(q) == LeadPhone(row))
    requires r in groups[at := groups[at] + [row]][i]
    ensures r in Rows(before + [row])
    ensures Rows(groups[at := groups[at] + [row]][i]) == GroupOf(Rows(before + [row]), r)
  {
    var after := groups[at := groups[at] + [row]];
    var first := groups[i][0];
    assert first in groups[i] && first in Rows(before);
    assert Rows(after[i]) == Rows(groups[i]) + (if i == at then {row} else {});
    if r == row && i == at {
      GroupGrows(before, row, first);
      assert GroupOf(Rows(before + [row]), row) == GroupOf(Rows(before + [row]), first);
    } else {
      assert r in groups[i] && r in Rows(before);
      GroupGrows(before, row, r);
      InAnotherGroup(groups, before, at, i, r);
      assert LeadPhone(r) == LeadPhone(row) <==> i == at;
      assert Rows(groups[i]) == GroupOf(Rows(before), r);
    }
  }

  lemma {:induction false} InAnotherGroup(groups: seq<seq<Row>>, before: seq<Row>, at: nat, i: nat, r: Row)
    requires IsPartition(groups, Rows(before)) && at < |groups| && i < |groups| && r in groups[i]
    ensures r in groups[at] <==> i == at
  {
    assert r in Rows(groups[i]);
    if i < at {
      assert Rows(groups[i]) !! Rows(groups[at]);
    } else if at < i {
      assert Rows(groups[at]) !! Rows(groups[i]);
    }
  }

  lemma {:induction false} NewGroup(groups: seq<seq<Row>>, before: seq<Row>, row: Row)
    requires IsPartition(groups, Rows(before)) && row !in before
    requires LeadPhone(row).Some? ==> forall r :: r in before ==> LeadPhone(r) != LeadPhone(row)
    ensures IsPartition(groups + [[row]], Rows(before + [row]))
  {
    var after := groups + [[row]];
    forall i | 0 <= i < |groups| ensures Rows(groups[i]) !! Rows([row]) {
      assert row in groups[i] ==> row in Rows(before);
    }
    forall i, r | 0 <= i < |after| && r in after[i]
      ensures r in Rows(before + [row]) && Rows(after[i]) == GroupOf(Rows(before + [row]), r)
    {
      GroupGrows(before, row, r);
      if i < |groups| {
        assert r in groups[i];
      } else {
        assert r == row && Rows([row]) == {row};
      }
    }
    forall r | r in Rows(before + [row]) ensures exists i :: 0 <= i < |after| && r in after[i] {
      if r == row {
        assert row in after[|groups|];
      } else {
        assert r in Rows(before);
        var i :| 0 <= i < |groups| && r in groups[i];
        assert r in after[i];
      }
    }
  }
}
