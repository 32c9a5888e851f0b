/** A load read off the file and the tables: what becomes of each line, which contacts carry which flags, and
    what the report counts (service/contacts.py, load_list). */
module IntakeColumns {
  import opened Types
  import opened Identity
  import opened Intake
  import opened IntakeRuns

  // Each line.

  /** The file is loaded: its source is registered and every targetable line has a key. */
  ghost predicate IsLoadable(lines: seq<Line>, source: string) {
    && (source == "cslb" || source == "cslb-ca" || "fbn-ca-" <= source)
    && forall i :: 0 <= i < |lines| && lines[i].segment.Some? ==> lines[i].key.Some?
  }

  lemma {:induction false} LoadableWhen(lines: seq<Line>, source: string)
    ensures IsLoadable(lines, source) <==> IsKnownSource(source) && !LacksKey(lines)
  {
  }

  ghost function TableOf(source: string): Family {
    if source == "cslb" || source == "cslb-ca" then Cslb else Fbn
  }

  lemma {:induction false} TableIsFamily(source: string)
    requires IsKnownSource(source)
    ensures FamilyOf(source) == Some(TableOf(source))
  {
    if "fbn-ca-" <= source {
      assert source[0] == 'f' && source[1] == 'b' && source[2] == 'n';
      assert "cslb"[0] == 'c';
    }
  }

  /** A targetable line whose key is in neither the table nor an earlier targetable line. */
  ghost predicate IsNewLine(b: Book, lines: seq<Line>, source: string, i: int) {
    && 0 <= i < |lines| && lines[i].segment.Some? && lines[i].key.Some?
    && Slot(TableOf(source), lines[i].key.value) !in b.intake
    && forall j :: 0 <= j < i && lines[j].segment.Some? ==> lines[j].key != lines[i].key
  }

  /** The row holds the line, column by column. */
  ghost predicate Holds(row: Row, line: Line, source: string) {
    && line.key.Some? && row.key == line.key.value && row.source == source
    && row.phone == line.phone && row.name == line.name && row.person == line.person && row.email == line.email
    && row.address == line.address && row.line2 == line.line2
    && line.segment.Some? && row.segment == line.segment.value && row.doNotMail == line.doNotMail
  }

  ghost function RowsOf(b: Book, lines: seq<Line>, source: string): seq<Row> {
    Accepted(Taken(b, TableOf(source)), lines, source)
  }

  /** The new lines, first to last. */
  ghost function NewIndices(b: Book, lines: seq<Line>, source: string): seq<int> {
    if lines == [] then [] else
    NewIndices(b, lines[..|lines| - 1], source) + if IsNewLine(b, lines, source, |lines| - 1) then [|lines| - 1] else []
  }

  lemma {:induction false} NewIndicesAre(b: Book, lines: seq<Line>, source: string)
    ensures forall i :: i in NewIndices(b, lines, source) <==> IsNewLine(b, lines, source, i)
    ensures Distinct(NewIndices(b, lines, source))
  {
    if lines != [] {
      var front, last := lines[..|lines| - 1], |lines| - 1;
      var before := NewIndices(b, front, source);
      NewIndicesAre(b, front, source);
      forall i ensures IsNewLine(b, lines, source, i) <==> IsNewLine(b, front, source, i) || (i == last && IsNewLine(b, lines, source, i)) {
      }
      forall k | 0 <= k < |before| ensures before[k] != last {
        assert before[k] in before;
      }
    }
  }

  ghost predicate AreHeld(rows: seq<Row>, lines: seq<Line>, source: string, indices: seq<int>) {
    && |rows| == |indices|
    && forall k :: 0 <= k < |rows| ==> 0 <= indices[k] < |lines| && Holds(rows[k], lines[indices[k]], source)
  }

  /** The accepted rows are the new lines, one row each. */
  lemma {:induction false} AcceptedAreNewLines(b: Book, lines: seq<Line>, source: string)
    requires forall i :: 0 <= i < |lines| && lines[i].segment.Some? ==> lines[i].key.Some?
    ensures AreHeld(RowsOf(b, lines, source), lines, source, NewIndices(b, lines, source))
  {
    if lines != [] {
      var front := lines[..|lines| - 1];
      AcceptedAreNewLines(b, front, source);
      LastLine(b, lines, source);
      assert AreHeld(RowsOf(b, front, source), lines, source, NewIndices(b, front, source));
    }
  }

  /** The last line adds the one row that holds it, exactly when it is new. */
  lemma {:induction false} LastLine(b: Book, lines: seq<Line>, source: string)
    requires lines != [] && forall i :: 0 <= i < |lines| && lines[i].segment.Some? ==> lines[i].key.Some?
    ensures var before, after := RowsOf(b, lines[..|lines| - 1], source), RowsOf(b, lines, source);
            if IsNewLine(b, lines, source, |lines| - 1)
            then exists row :: after == before + [row] && Holds(row, lines[|lines| - 1], source)
            else after == before
  {
    var front, last := lines[..|lines| - 1], lines[|lines| - 1];
    var taken := Taken(b, TableOf(source));
    if last.segment.Some? {
      SeenBefore(taken, front, source, last.key.value);
      assert last.key.value in taken <==> Slot(TableOf(source), last.key.value) in b.intake;
      if IsNewLine(b, lines, source, |lines| - 1) {
        assert RowsOf(b, lines, source) == RowsOf(b, front, source) + [RowOf(last, source)] && Holds(RowOf(last, source), last, source);
      }
    }
  }

  /** A key is in the table or among the accepted rows exactly when the table has it or a line before had it. */
  lemma {:induction false} SeenBefore(taken: set<Id>, lines: seq<Line>, source: string, key: Id)
    requires forall i :: 0 <= i < |lines| && lines[i].segment.Some? ==> lines[i].key.Some?
    ensures key in taken || key in Keys(Accepted(taken, lines, source))
            <==> key in taken || exists j :: 0 <= j < |lines| && lines[j].segment.Some? && lines[j].key == Some(key)
  {
    if lines != [] {
      var front, last := lines[..|lines| - 1], lines[|lines| - 1];
      SeenBefore(taken, front, source, key);
      var before, after := Accepted(taken, front, source), Accepted(taken, lines, source);
      assert forall r :: r in before ==> r in after;
      if last.segment.Some? {
        SeenBefore(taken, front, source, last.key.value);
        if IsAccepted(taken, before, last) {
          assert after == before + [RowOf(last, source)];
          assert Keys(after) == Keys(before) + {last.key.value};
        }
      }
      assert lines == front + [last];
      if key !in taken && last.segment.Some? && last.key == Some(key) {
        assert lines[|lines| - 1].key == Some(key);
      }
    }
  }

  /** What a load leaves of an accepted row. */
  ghost predicate IsKept(later: Book, r: Row) {
    && HasTable(r) && SlotOf(r) in later.intake && later.intake[SlotOf(r)].row == r
    && var id := later.intake[SlotOf(r)].contact;
    && id in later.contacts && !later.contacts[id].isSeed && later.contacts[id].lead.phone == LeadPhone(r)
    && (r.doNotMail ==> later.contacts[id].lead.doNotMail)
  }

  lemma {:induction false} RowIsKept(b: Book, lines: seq<Line>, source: string, now: Time, groups: seq<seq<Row>>, later: Book, r: Row)
    requires BookInv(b) && IsLoad(b, lines, source, now, groups, later) && IsKnownSource(source) && !LacksKey(lines)
    requires r in Accepted(Taken(b, FamilyOf(source).value), lines, source)
    ensures IsKept(later, r)
  {
    LoadKeeps(b, lines, source, now, groups, later);
    LoadParts(b, lines, source, groups);
    ApartFits(b, groups, now);
    assert r in Rows(Accepted(Taken(b, FamilyOf(source).value), lines, source));
    var k :| 0 <= k < |groups| && r in groups[k];
    EachIsFiled(b, groups, now, k);
    assert FilingSound(later, SlotOf(r));
  }

  /** A load by lines. Each new line is stored in its slot as it stands, under a contact that is no seed, has
      the phone that identifies it, and is marked do-not-mail if the line is. */
  lemma {:induction false} LineIsStored(b: Book, lines: seq<Line>, source: string, now: Time, groups: seq<seq<Row>>, later: Book, i: int)
    requires BookInv(b) && IsLoad(b, lines, source, now, groups, later) && IsLoadable(lines, source)
    requires IsNewLine(b, lines, source, i)
    ensures var at := Slot(TableOf(source), lines[i].key.value);
            && at in later.intake && Holds(later.intake[at].row, lines[i], source)
            && var id := later.intake[at].contact;
            && id in later.contacts && !later.contacts[id].isSeed
            && later.contacts[id].lead.phone == (if TableOf(source).Cslb? then lines[i].phone else None)
            && (lines[i].doNotMail ==> later.contacts[id].lead.doNotMail)
  {
    LoadableWhen(lines, source);
    TableIsFamily(source);
    var r := RowOfLine(b, lines, source, i);
    RowIsKept(b, lines, source, now, groups, later, r);
  }

  lemma {:induction false} RowOfLine(b: Book, lines: seq<Line>, source: string, i: int) returns (r: Row)
    requires IsLoadable(lines, source) && IsNewLine(b, lines, source, i)
    ensures r in RowsOf(b, lines, source) && Holds(r, lines[i], source)
  {
    AcceptedAreNewLines(b, lines, source);
    NewIndicesAre(b, lines, source);
    var indices := NewIndices(b, lines, source);
    var k :| 0 <= k < |indices| && indices[k] == i;
    r := RowsOf(b, lines, source)[k];
  }

  lemma {:induction false} LineOfRow(b: Book, lines: seq<Line>, source: string, r: Row) returns (i: int)
    requires IsLoadable(lines, source) && r in RowsOf(b, lines, source)
    ensures IsNewLine(b, lines, source, i) && Holds(r, lines[i], source)
  {
    AcceptedAreNewLines(b, lines, source);
    NewIndicesAre(b, lines, source);
    var k :| 0 <= k < |RowsOf(b, lines, source)| && RowsOf(b, lines, source)[k] == r;
    i := NewIndices(b, lines, source)[k];
    assert i in NewIndices(b, lines, source);
  }

  /** Nothing else is stored, and no row stored before changes. */
  lemma {:induction false} NothingElseIsStored(b: Book, lines: seq<Line>, source: string, now: Time, groups: seq<seq<Row>>, later: Book, at: Slot)
    requires BookInv(b) && IsLoad(b, lines, source, now, groups, later)
    ensures at in b.intake ==> at in later.intake && later.intake[at] == b.intake[at]
    ensures at in later.intake && at !in b.intake ==>
              IsLoadable(lines, source) && exists i :: IsNewLine(b, lines, source, i) && at == Slot(TableOf(source), lines[i].key.value)
  {
    LoadKeeps(b, lines, source, now, groups, later);
    LoadableWhen(lines, source);
    if IsLoadable(lines, source) && at in later.intake && at !in b.intake {
      TableIsFamily(source);
      LoadParts(b, lines, source, groups);
      ApartFits(b, groups, now);
      AcceptedAreRows(Taken(b, TableOf(source)), lines, source, TableOf(source));
      SlotsOfPartition(groups, Rows(RowsOf(b, lines, source)));
      var r :| r in Rows(RowsOf(b, lines, source)) && SlotOf(r) == at;
      var i := LineOfRow(b, lines, source, r);
    }
  }

  // The report.

  ghost function NewLines(b: Book, lines: seq<Line>, source: string): set<int> {
    set i | 0 <= i < |lines| && IsNewLine(b, lines, source, i)
  }

  ghost function MarkedLines(b: Book, lines: seq<Line>, source: string): set<int> {
    set i | i in NewLines(b, lines, source) && 0 <= i < |lines| && lines[i].doNotMail
  }

  ghost function Marked(rows: seq<Row>): set<Row> {
    set r | r in rows && r.doNotMail
  }

  /** Of a list without repeats, as many are chosen as there are elements to choose. */
  lemma {:induction false} ChosenCount<T(!new)>(s: seq<T>, p: T -> bool, chosen: set<T>)
    requires Distinct(s) && forall x :: x in chosen <==> x in s && p(x)
    ensures |Filter(s, p)| == |chosen|
  {
    if s == [] {
      assert chosen == {};
    } else {
      var front, last := s[..|s| - 1], s[|s| - 1];
      assert s == front + [last] && last !in front;
      ChosenCount(front, p, chosen - {last});
    }
  }

  lemma {:induction false} ChosenInStep<A(!new), B(!new)>(s: seq<A>, p: A -> bool, t: seq<B>, q: B -> bool)
    requires |s| == |t| && forall k :: 0 <= k < |s| ==> p(s[k]) == q(t[k])
    ensures |Filter(s, p)| == |Filter(t, q)|
  {
    if s != [] {
      ChosenInStep(s[..|s| - 1], p, t[..|t| - 1], q);
    }
  }

  lemma {:induction false} AcceptedCount(b: Book, lines: seq<Line>, source: string)
    requires IsLoadable(lines, source)
    ensures |RowsOf(b, lines, source)| == |NewLines(b, lines, source)|
    ensures |Marked(RowsOf(b, lines, source))| == |MarkedLines(b, lines, source)|
  {
    var rows, indices := RowsOf(b, lines, source), NewIndices(b, lines, source);
    AcceptedAreNewLines(b, lines, source);
    NewIndicesAre(b, lines, source);
    var news := NewLines(b, lines, source);
    assert forall i :: i in news <==> i in indices;
    CountOf(lines, source, rows, indices, news);
  }

  lemma {:induction false} CountOf(lines: seq<Line>, source: string, rows: seq<Row>, indices: seq<int>, news: set<int>)
    requires AreHeld(rows, lines, source, indices) && Distinct(rows) && Distinct(indices)
    requires forall i :: i in news <==> i in indices
    ensures |rows| == |news|
    ensures |Marked(rows)| == |set i | i in news && 0 <= i < |lines| && lines[i].doNotMail|
  {
    var p, q, any := (r: Row) => r.doNotMail, (i: int) => 0 <= i < |lines| && lines[i].doNotMail, (i: int) => true;
    assert forall i: int :: i in news <==> i in indices && any(i);
    ChosenCount(indices, any, news);
    AllChosen(indices, any);
    ChosenCount(rows, p, Marked(rows));
    ChosenCount(indices, q, set i | i in news && 0 <= i < |lines| && lines[i].doNotMail);
    ChosenInStep(rows, p, indices, q);
  }

  lemma {:induction false} AllChosen<T(!new)>(s: seq<T>, p: T -> bool)
    requires forall x :: p(x)
    ensures Filter(s, p) == s
  {
    if s != [] {
      AllChosen(s[..|s| - 1], p);
    }
  }

  /** The note that a stored row is do-not-mail. */
  ghost predicate IsNote(e: Event, contact: Id, now: Time) {
    e == Event(Some(contact), None, System, ContactSuppressed, now, None, Payload(reason := Some("do_not_mail")))
  }

  ghost predicate IsNoteOf(e: Event, later: Book, now: Time, r: Row) {
    r.doNotMail && HasTable(r) && SlotOf(r) in later.intake && IsNote(e, later.intake[SlotOf(r)].contact, now)
  }

  ghost function MarkedIn(groups: seq<seq<Row>>): set<Row> {
    set i, r | 0 <= i < |groups| && r in groups[i] && r.doNotMail :: r
  }

  /** The log grew by notes of those rows only, as many as there are rows, each row noted. */
  ghost predicate Noted(before: seq<Event>, later: Book, now: Time, rows: set<Row>) {
    && |before| <= |later.events| && later.events[..|before|] == before
    && |later.events| - |before| == |rows|
    && (forall k :: |before| <= k < |later.events| ==> NotesSome(later.events[k], later, now, rows))
    && (forall r :: r in rows ==> IsNotedIn(before, later, now, r))
  }

  ghost predicate NotesSome(e: Event, later: Book, now: Time, rows: set<Row>) {
    exists r :: r in rows && IsNoteOf(e, later, now, r)
  }

  ghost predicate IsNotedIn(before: seq<Event>, later: Book, now: Time, r: Row) {
    exists k :: |before| <= k < |later.events| && IsNoteOf(later.events[k], later, now, r)
  }

  lemma {:induction false} FiledStep(b: Book, group: seq<Row>, id: Id, primary: Option<Id>, now: Time)
    requires group != [] && forall i :: 0 <= i < |group| ==> HasTable(group[i])
    ensures var front, last := group[..|group| - 1], group[|group| - 1];
            Filed(b, group, id, primary, now).events
            == Filed(b, front, id, primary, now).events + if last.doNotMail then [SuppressedEvent(id, now)] else []
  {
  }

  lemma {:induction false} MarkedSnoc(front: seq<Row>, last: Row)
    requires last !in front
    ensures |Marked(front + [last])| == |Marked(front)| + if last.doNotMail then 1 else 0
  {
    assert Marked(front + [last]) == Marked(front) + if last.doNotMail then {last} else {};
  }

  lemma {:induction false} FiledNotes(b: Book, group: seq<Row>, id: Id, primary: Option<Id>, now: Time)
    requires Distinct(group) && forall i :: 0 <= i < |group| ==> HasTable(group[i])
    ensures var log := Filed(b, group, id, primary, now).events;
            && |b.events| <= |log| && log[..|b.events|] == b.events
            && |log| - |b.events| == |Marked(group)|
            && (forall k :: |b.events| <= k < |log| ==> IsNote(log[k], id, now))
  {
    if group == [] {
      assert Marked(group) == {};
    } else {
      var front, last := group[..|group| - 1], group[|group| - 1];
      FiledNotes(b, front, id, primary, now);
      FiledStep(b, group, id, primary, now);
      assert group == front + [last];
      MarkedSnoc(front, last);
    }
  }

  lemma {:induction false} SettleLogs(b: Book, group: seq<Row>, now: Time, id: Id)
    requires IsFileGroup(group)
    requires var holders := Holders(b, LeadPhone(group[0])); id == if holders != {} then MinOf(holders) else b.next
    ensures var log := Settle(b, group, now).events;
            && |b.events| <= |log| && log[..|b.events|] == b.events && |log| - |b.events| == |Marked(group)|
            && forall k :: |b.events| <= k < |log| ==> IsNote(log[k], id, now)
  {
    assert forall i :: 0 <= i < |group| ==> group[i] in group;
    if Holders(b, LeadPhone(group[0])) != {} {
      FiledNotes(b.(contacts := b.contacts[id := Attached(b.contacts[id], Rows(group))]), group, id, None, now);
    } else {
      FiledNotes(b.(contacts := b.contacts[id := NewContact(b, Rows(group))], next := id + 1),
                 group, id, Some(Winner(Rows(group)).key), now);
    }
  }

  /** One group: a note for each of its marked rows, of the contact it is filed under. */
  lemma {:induction false} SettleNotes(b: Book, group: seq<Row>, now: Time)
    requires IsFileGroup(group) && AreNew(b, group)
    ensures Noted(b.events, Settle(b, group, now), now, Marked(group))
  {
    var holders, later := Holders(b, LeadPhone(group[0])), Settle(b, group, now);
    var id := if holders != {} then MinOf(holders) else b.next;
    SettleLogs(b, group, now, id);
    forall r | r in group ensures HasTable(r) && SlotOf(r) in later.intake && later.intake[SlotOf(r)].contact == id {
      FiledTo(b, group, now, r);
    }
    NotesAreNoted(b.events, later, now, group, id);
  }

  lemma {:induction false} NotesAreNoted(before: seq<Event>, later: Book, now: Time, group: seq<Row>, id: Id)
    requires |before| <= |later.events| && later.events[..|before|] == before && |later.events| - |before| == |Marked(group)|
    requires forall k :: |before| <= k < |later.events| ==> IsNote(later.events[k], id, now)
    requires forall r :: r in group ==> HasTable(r) && SlotOf(r) in later.intake && later.intake[SlotOf(r)].contact == id
    ensures Noted(before, later, now, Marked(group))
  {
    if |later.events| > |before| {
      var some :| some in Marked(group);
      forall k | |before| <= k < |later.events| ensures NotesSome(later.events[k], later, now, Marked(group)) {
        assert IsNoteOf(later.events[k], later, now, some);
      }
      forall r | r in Marked(group) ensures IsNotedIn(before, later, now, r) {
        assert IsNoteOf(later.events[|before|], later, now, r);
      }
    }
  }

  lemma {:induction false} NotedTransitive(log: seq<Event>, mid: Book, later: Book, now: Time, a: set<Row>, c: set<Row>)
    requires Noted(log, mid, now, a) && Noted(mid.events, later, now, c) && a !! c
    requires forall at :: at in mid.intake ==> at in later.intake && later.intake[at] == mid.intake[at]
    ensures Noted(log, later, now, a + c)
  {
    NotedLength(log, mid.events, later.events, a, c);
    forall k | |log| <= k < |later.events| ensures NotesSome(later.events[k], later, now, a + c) {
      AnyNoteStays(log, mid, later, now, a, c, k);
    }
    forall r | r in a + c ensures IsNotedIn(log, later, now, r) {
      NoteStays(log, mid, later, now, r, r in a);
    }
  }

  lemma {:induction false} NotedLength(log: seq<Event>, mid: seq<Event>, later: seq<Event>, a: set<Row>, c: set<Row>)
    requires |log| <= |mid| <= |later| && mid[..|log|] == log && later[..|mid|] == mid && a !! c
    requires |mid| - |log| == |a| && |later| - |mid| == |c|
    ensures later[..|log|] == log && |later| - |log| == |a + c|
  {
    assert later[..|log|] == later[..|mid|][..|log|];
  }

  lemma {:induction false} AnyNoteStays(log: seq<Event>, mid: Book, later: Book, now: Time, a: set<Row>, c: set<Row>, k: nat)
    requires Noted(log, mid, now, a) && Noted(mid.events, later, now, c) && |log| <= k < |later.events|
    requires forall at :: at in mid.intake ==> at in later.intake && later.intake[at] == mid.intake[at]
    ensures NotesSome(later.events[k], later, now, a + c)
  {
    if k < |mid.events| {
      assert later.events[k] == mid.events[k];
      SomeNoteStays(mid.events[k], mid, later, now, a, a + c);
    } else {
      SomeNoteStays(later.events[k], later, later, now, c, a + c);
    }
  }

  lemma {:induction false} SomeNoteStays(e: Event, mid: Book, later: Book, now: Time, some: set<Row>, all: set<Row>)
    requires NotesSome(e, mid, now, some) && some <= all
    requires forall at :: at in mid.intake ==> at in later.intake && later.intake[at] == mid.intake[at]
    ensures NotesSome(e, later, now, all)
  {
    var r :| r in some && IsNoteOf(e, mid, now, r);
    assert r in all && IsNoteOf(e, later, now, r);
  }

  lemma {:induction false} NoteStays(log: seq<Event>, mid: Book, later: Book, now: Time, r: Row, early: bool)
    requires |log| <= |mid.events| <= |later.events| && later.events[..|mid.events|] == mid.events
    requires forall at :: at in mid.intake ==> at in later.intake && later.intake[at] == mid.intake[at]
    requires if early then IsNotedIn(log, mid, now, r) else IsNotedIn(mid.events, later, now, r)
    ensures IsNotedIn(log, later, now, r)
  {
    if early {
      var k :| |log| <= k < |mid.events| && IsNoteOf(mid.events[k], mid, now, r);
      assert later.events[k] == mid.events[k] && IsNoteOf(later.events[k], later, now, r);
    }
  }

  lemma {:induction false} LoadNotes(b: Book, groups: seq<seq<Row>>, now: Time)
    requires BookInv(b) && AreFileGroups(groups) && Fits(b, groups, now)
    requires forall i, j :: 0 <= i < j < |groups| ==> Rows(groups[i]) !! Rows(groups[j])
    ensures Noted(b.events, SettleAll(b, groups, now), now, MarkedIn(groups))
  {
    if groups == [] {
      assert MarkedIn(groups) == {};
    } else {
      var front, last := groups[..|groups| - 1], groups[|groups| - 1];
      var mid := SettleAll(b, front, now);
      LoadNotes(b, front, now);
      SettleAllKeeps(b, front, now);
      SettleNotes(mid, last, now);
      SettleKeeps(mid, last, now);
      MarkedInSnoc(groups);
      NotedTransitive(b.events, mid, Settle(mid, last, now), now, MarkedIn(front), Marked(last));
    }
  }

  lemma {:induction false} MarkedInSnoc(groups: seq<seq<Row>>)
    requires groups != [] && forall i, j :: 0 <= i < j < |groups| ==> Rows(groups[i]) !! Rows(groups[j])
    ensures var front, last := groups[..|groups| - 1], groups[|groups| - 1];
            MarkedIn(groups) == MarkedIn(front) + Marked(last) && MarkedIn(front) !! Marked(last)
  {
    var front, last := groups[..|groups| - 1], groups[|groups| - 1];
    forall r | r in MarkedIn(front) ensures r !in last && r in MarkedIn(groups) {
      var i :| 0 <= i < |front| && r in front[i] && r.doNotMail;
      assert front[i] == groups[i] && r in Rows(groups[i]) && r !in Rows(groups[|groups| - 1]);
    }
    forall r | r in MarkedIn(groups) ensures r in MarkedIn(front) || r in last {
      var i :| 0 <= i < |groups| && r in groups[i] && r.doNotMail;
      assert i < |front| ==> groups[i] == front[i];
    }
  }

  lemma {:induction false} MarkedOfPartition(groups: seq<seq<Row>>, rows: seq<Row>)
    requires IsPartition(groups, Rows(rows))
    ensures MarkedIn(groups) == Marked(rows)
  {
    forall r ensures r in MarkedIn(groups) <==> r in Marked(rows) {
      if r in MarkedIn(groups) {
        var i :| 0 <= i < |groups| && r in groups[i] && r.doNotMail;
        assert r in Rows(rows);
      }
      if r in Marked(rows) {
        assert r in Rows(rows);
        var i :| 0 <= i < |groups| && r in groups[i];
      }
    }
  }

  /** The report of a load, by lines: one row loaded for each new line, one suppression for each new line that
      is marked, and the log grown by a note for each of those, of the contact its row is filed under. */
  lemma {:induction false} LoadReports(b: Book, lines: seq<Line>, source: string, now: Time, groups: seq<seq<Row>>, later: Book)
    requires BookInv(b) && IsLoad(b, lines, source, now, groups, later) && IsLoadable(lines, source)
    ensures |RowsOf(b, lines, source)| == |NewLines(b, lines, source)|
    ensures |b.events| <= |later.events| && later.events[..|b.events|] == b.events
    ensures |later.events| - |b.events| == |MarkedLines(b, lines, source)|
    ensures forall k :: |b.events| <= k < |later.events| ==> NotesALine(b, lines, source, now, later, k)
    ensures forall i :: i in MarkedLines(b, lines, source) ==> LineIsNoted(b, lines, source, now, later, i)
  {
    LoadableWhen(lines, source);
    TableIsFamily(source);
    LoadParts(b, lines, source, groups);
    ApartFits(b, groups, now);
    LoadNotes(b, groups, now);
    MarkedOfPartition(groups, RowsOf(b, lines, source));
    AcceptedCount(b, lines, source);
    forall k | |b.events| <= k < |later.events| ensures NotesALine(b, lines, source, now, later, k) {
      assert NotesSome(later.events[k], later, now, MarkedIn(groups));
      NoteIsOfLine(b, lines, source, now, later, k, MarkedIn(groups));
    }
    forall i | i in MarkedLines(b, lines, source) ensures LineIsNoted(b, lines, source, now, later, i) {
      LineHasNote(b, lines, source, now, later, i, MarkedIn(groups));
    }
  }

  /** The k-th event notes that the i-th line, new and marked, is do-not-mail. */
  ghost predicate IsNotedLine(b: Book, lines: seq<Line>, source: string, now: Time, later: Book, i: int, k: int) {
    && IsNewLine(b, lines, source, i) && lines[i].doNotMail && 0 <= k < |later.events|
    && var at := Slot(TableOf(source), lines[i].key.value);
    && at in later.intake && IsNote(later.events[k], later.intake[at].contact, now)
  }

  ghost predicate NotesALine(b: Book, lines: seq<Line>, source: string, now: Time, later: Book, k: int) {
    exists i :: IsNotedLine(b, lines, source, now, later, i, k)
  }

  ghost predicate LineIsNoted(b: Book, lines: seq<Line>, source: string, now: Time, later: Book, i: int) {
    exists k :: |b.events| <= k < |later.events| && IsNotedLine(b, lines, source, now, later, i, k)
  }

  lemma {:induction false} NoteIsOfLine(b: Book, lines: seq<Line>, source: string, now: Time, later: Book, k: int, rows: set<Row>)
    requires IsLoadable(lines, source) && rows == Marked(RowsOf(b, lines, source))
    requires 0 <= k < |later.events| && NotesSome(later.events[k], later, now, rows)
    ensures NotesALine(b, lines, source, now, later, k)
  {
    LoadableWhen(lines, source);
    TableIsFamily(source);
    var r :| r in rows && IsNoteOf(later.events[k], later, now, r);
    var i := LineOfRow(b, lines, source, r);
    assert IsNotedLine(b, lines, source, now, later, i, k);
  }

  lemma {:induction false} LineHasNote(b: Book, lines: seq<Line>, source: string, now: Time, later: Book, i: int, rows: set<Row>)
    requires IsLoadable(lines, source) && rows == Marked(RowsOf(b, lines, source)) && i in MarkedLines(b, lines, source)
    requires forall r :: r in rows ==> IsNotedIn(b.events, later, now, r)
    ensures LineIsNoted(b, lines, source, now, later, i)
  {
    LoadableWhen(lines, source);
    TableIsFamily(source);
    var r := RowOfLine(b, lines, source, i);
    assert IsNotedIn(b.events, later, now, r);
    var k :| |b.events| <= k < |later.events| && IsNoteOf(later.events[k], later, now, r);
    assert IsNotedLine(b, lines, source, now, later, i, k);
  }

  // The contacts a load creates.

  /** The tombstone is for the row's phone or for its key. */
  ghost predicate Names(t: Tombstone, row: Row) {
    || (t.phone.Some? && row.phone.Some? && t.phone.value == row.phone.value)
    || (t.listKey.Some? && t.listKey.value == row.key)
  }

  ghost predicate IsOwn(b: Book, at: Slot, id: Id) {
    at in b.intake && b.intake[at].contact == id
  }

  ghost predicate RecalledFor(tombs: set<Tombstone>, b: Book, id: Id, channel: Channel) {
    exists t, at :: t in tombs && t.channel == channel && IsOwn(b, at, id) && Names(t, b.intake[at].row)
  }

  ghost predicate MarkedFor(b: Book, id: Id) {
    exists at :: IsOwn(b, at, id) && b.intake[at].row.doNotMail
  }

  /** The primary row speaks for the contact; an email it lacks comes from the lowest key that has one. */
  ghost predicate SpeaksFor(b: Book, at: Slot, id: Id, lead: Lead)
    requires at in b.intake
  {
    var row := b.intake[at].row;
    && lead.name == row.name && lead.person == row.person && lead.address == row.address && lead.line2 == row.line2
    && lead.segment == row.segment && lead.source == row.source
    && (row.email.Some? ==> lead.email == row.email)
    && (row.email.None? && lead.email.Some? ==> exists other :: IsOwn(b, other, id) && LendsEmail(b, other, id, lead.email))
    && (lead.email.None? ==> forall other :: IsOwn(b, other, id) ==> b.intake[other].row.email.None?)
  }

  ghost predicate LendsEmail(b: Book, at: Slot, id: Id, email: Option<string>)
    requires at in b.intake
  {
    && b.intake[at].row.email == email
    && forall other :: IsOwn(b, other, id) && b.intake[other].row.email.Some? ==> b.intake[at].row.key <= b.intake[other].row.key
  }

  /** A created contact: each channel is blocked exactly when a tombstone names one of its rows for it, mail
      also when a row is marked; the rest is its primary row's. */
  ghost predicate IsAsFiled(tombs: set<Tombstone>, b: Book, id: Id) {
    && id in b.contacts && !b.contacts[id].isSeed
    && (b.contacts[id].doNotText <==> RecalledFor(tombs, b, id, Sms))
    && (b.contacts[id].doNotCall <==> RecalledFor(tombs, b, id, Voice))
    && (b.contacts[id].lead.doNotMail <==> MarkedFor(b, id) || RecalledFor(tombs, b, id, Mail))
    && forall at :: IsOwn(b, at, id) && b.intake[at].isPrimary ==> SpeaksFor(b, at, id, b.contacts[id].lead)
  }

  /** The rows filed under the contact are those of the group. */
  ghost predicate OwnsGroup(b: Book, id: Id, group: seq<Row>) {
    && (forall at :: IsOwn(b, at, id) ==> b.intake[at].row in group && HasTable(b.intake[at].row) && SlotOf(b.intake[at].row) == at)
    && (forall r :: r in group ==> HasTable(r) && IsOwn(b, SlotOf(r), id) && b.intake[SlotOf(r)].row == r)
  }

  lemma {:induction false} CreatedOwnsGroup(b: Book, group: seq<Row>, now: Time)
    requires BookInv(b) && IsFileGroup(group) && AreNew(b, group) && Holders(b, LeadPhone(group[0])) == {}
    ensures var later := Settle(b, group, now);
            && OwnsGroup(later, b.next, group) && b.next in later.contacts && later.contacts[b.next] == NewContact(b, Rows(group))
            && forall at :: IsOwn(later, at, b.next) && later.intake[at].isPrimary ==> later.intake[at].row.key == Winner(Rows(group)).key
  {
    SettleCreates(b, group, now);
    var later := Settle(b, group, now);
    forall at | IsOwn(later, at, b.next) ensures at !in b.intake {
      assert FilingSound(b, at);
    }
  }

  lemma {:induction false} RecalledWhen(b: Book, later: Book, id: Id, group: seq<Row>, channel: Channel)
    requires OwnsGroup(later, id, group)
    ensures IsRecalled(b, Rows(group), channel) <==> RecalledFor(b.tombs, later, id, channel)
  {
    if IsRecalled(b, Rows(group), channel) {
      var t, r :| t in b.tombs && r in Rows(group) && Recalls(t, r) && t.channel == channel;
      assert IsOwn(later, SlotOf(r), id) && Names(t, later.intake[SlotOf(r)].row);
    }
    if RecalledFor(b.tombs, later, id, channel) {
      var t, at :| t in b.tombs && t.channel == channel && IsOwn(later, at, id) && Names(t, later.intake[at].row);
      assert later.intake[at].row in Rows(group) && Recalls(t, later.intake[at].row);
    }
  }

  lemma {:induction false} MarkedWhen(later: Book, id: Id, group: seq<Row>)
    requires OwnsGroup(later, id, group)
    ensures AnyDoNotMail(Rows(group)) <==> MarkedFor(later, id)
  {
    if r :| r in Rows(group) && r.doNotMail {
      assert IsOwn(later, SlotOf(r), id);
    }
  }

  lemma {:induction false} WinnerSpeaks(later: Book, id: Id, group: seq<Row>, at: Slot)
    requires OwnsGroup(later, id, group) && IsFileGroup(group) && IsOwn(later, at, id)
    requires later.intake[at].row.key == Winner(Rows(group)).key
    ensures SpeaksFor(later, at, id, LeadFor(Rows(group)))
  {
    var w := Winner(Rows(group));
    assert later.intake[at].row in Rows(group) && w in Rows(group);
    assert later.intake[at].row == w;
    var email := Email(Rows(group));
    if HasEmail(Rows(group)) {
      var r :| r in Rows(group) && GivesEmail(Rows(group), w, r) && email == r.email;
      assert IsOwn(later, SlotOf(r), id);
      if w.email.None? {
        assert LendsEmail(later, SlotOf(r), id, email);
      }
    }
  }

  lemma {:induction false} CreatedIsAsFiled(b: Book, group: seq<Row>, now: Time)
    requires BookInv(b) && IsFileGroup(group) && AreNew(b, group) && Holders(b, LeadPhone(group[0])) == {}
    ensures IsAsFiled(b.tombs, Settle(b, group, now), b.next)
  {
    var later := Settle(b, group, now);
    CreatedOwnsGroup(b, group, now);
    RecalledWhen(b, later, b.next, group, Mail);
    RecalledWhen(b, later, b.next, group, Sms);
    RecalledWhen(b, later, b.next, group, Voice);
    MarkedWhen(later, b.next, group);
    forall at | IsOwn(later, at, b.next) && later.intake[at].isPrimary
      ensures SpeaksFor(later, at, b.next, later.contacts[b.next].lead)
    {
      WinnerSpeaks(later, b.next, group, at);
    }
  }

  /** A contact and its rows as they were are still as filed. */
  lemma {:induction false} StaysAsFiled(tombs: set<Tombstone>, b: Book, later: Book, id: Id)
    requires IsAsFiled(tombs, b, id) && id in later.contacts && later.contacts[id] == b.contacts[id]
    requires forall at :: IsOwn(later, at, id) <==> IsOwn(b, at, id)
    requires forall at :: IsOwn(b, at, id) ==> at in later.intake && later.intake[at] == b.intake[at]
    ensures IsAsFiled(tombs, later, id)
  {
    forall channel: Channel ensures RecalledFor(tombs, later, id, channel) <==> RecalledFor(tombs, b, id, channel) {
      if t, at :| t in tombs && t.channel == channel && IsOwn(later, at, id) && Names(t, later.intake[at].row) {
        assert IsOwn(b, at, id);
      }
      if t, at :| t in tombs && t.channel == channel && IsOwn(b, at, id) && Names(t, b.intake[at].row) {
        assert IsOwn(later, at, id);
      }
    }
    assert MarkedFor(later, id) <==> MarkedFor(b, id);
    forall at | IsOwn(later, at, id) && later.intake[at].isPrimary ensures SpeaksFor(later, at, id, later.contacts[id].lead) {
      assert SpeaksFor(b, at, id, b.contacts[id].lead);
      var email := b.contacts[id].lead.email;
      if b.intake[at].row.email.None? && email.Some? {
        var other :| IsOwn(b, other, id) && LendsEmail(b, other, id, email);
        assert IsOwn(later, other, id) && LendsEmail(later, other, id, email);
      }
    }
  }

  lemma {:induction false} AddsElsewhere(b: Book, later: Book, group: seq<Row>, holder: Id, primary: Option<Id>, id: Id)
    requires Adds(b.intake, group, holder, primary, later.intake) && AreNew(b, group) && id != holder
    ensures forall at :: IsOwn(later, at, id) <==> IsOwn(b, at, id)
    ensures forall at :: IsOwn(b, at, id) ==> at in later.intake && later.intake[at] == b.intake[at]
  {
    forall at | IsOwn(later, at, id) ensures IsOwn(b, at, id) {
      assert at in b.intake || IsSlotOf(group, at);
    }
  }

  /** Settling a group touches no contact made since `start` but the one it makes. */
  lemma {:induction false} OthersUntouched(start: Book, b: Book, group: seq<Row>, now: Time, id: Id)
    requires BookInv(b) && IsFileGroup(group) && AreNew(b, group) && start.next <= id && id in b.contacts
    requires (forall other :: other in start.contacts ==> other < start.next)
    requires forall other :: IsHolder(b, other, LeadPhone(group[0])) ==> IsHolder(start, other, LeadPhone(group[0]))
    ensures var later := Settle(b, group, now);
            && id in later.contacts && later.contacts[id] == b.contacts[id]
            && (forall at :: IsOwn(later, at, id) <==> IsOwn(b, at, id))
            && (forall at :: IsOwn(b, at, id) ==> at in later.intake && later.intake[at] == b.intake[at])
  {
    var holders := Holders(b, LeadPhone(group[0]));
    if holders != {} {
      assert IsHolder(start, MinOf(holders), LeadPhone(group[0]));
      SettleAttaches(b, group, now);
      AddsElsewhere(b, Settle(b, group, now), group, MinOf(holders), None, id);
    } else {
      SettleCreates(b, group, now);
      AddsElsewhere(b, Settle(b, group, now), group, b.next, Some(Winner(Rows(group)).key), id);
    }
  }

  lemma {:induction false} AllAsFiled(b: Book, groups: seq<seq<Row>>, now: Time)
    requires BookInv(b) && AreFileGroups(groups) && Fits(b, groups, now) && PhonesApart(groups)
    ensures var later := SettleAll(b, groups, now);
            forall id :: id in later.contacts && id >= b.next ==> IsAsFiled(b.tombs, later, id)
  {
    if groups != [] {
      var front, last := groups[..|groups| - 1], groups[|groups| - 1];
      var mid := SettleAll(b, front, now);
      PhonesApartFront(groups);
      AllAsFiled(b, front, now);
      SettleAllKeeps(b, front, now);
      OldHolders(b, groups, now);
      SettleMints(mid, last, now);
      var later := Settle(mid, last, now);
      forall id | id in later.contacts && id >= b.next ensures IsAsFiled(b.tombs, later, id) {
        if id in mid.contacts {
          OthersUntouched(b, mid, last, now, id);
          StaysAsFiled(b.tombs, mid, later, id);
        } else {
          CreatedIsAsFiled(mid, last, now);
        }
      }
    }
  }

  /** A row filed under the contact since `b` is marked. */
  ghost predicate NewlyMarked(b: Book, later: Book, id: Id) {
    exists at :: at !in b.intake && IsOwn(later, at, id) && later.intake[at].row.doNotMail
  }

  ghost predicate IsMarkedSince(b: Book, later: Book, id: Id) {
    id in b.contacts && id in later.contacts
    && (later.contacts[id].lead.doNotMail <==> b.contacts[id].lead.doNotMail || NewlyMarked(b, later, id))
  }

  lemma {:induction false} AddedRows(b: Book, later: Book, group: seq<Row>, holder: Id, primary: Option<Id>, id: Id)
    requires IsFileGroup(group) && AreNew(b, group) && Adds(b.intake, group, holder, primary, later.intake)
    ensures NewlyMarked(b, later, id) <==> id == holder && AnyDoNotMail(Rows(group))
  {
    if r :| r in Rows(group) && r.doNotMail {
      assert HasTable(r) && SlotOf(r) !in b.intake && IsOwn(later, SlotOf(r), holder);
    }
    if at :| at !in b.intake && IsOwn(later, at, id) && later.intake[at].row.doNotMail {
      assert IsSlotOf(group, at);
      assert later.intake[at].row in Rows(group);
    }
  }

  lemma {:induction false} SettleMarks(b: Book, group: seq<Row>, now: Time, id: Id)
    requires BookInv(b) && IsFileGroup(group) && AreNew(b, group) && id in b.contacts
    ensures IsMarkedSince(b, Settle(b, group, now), id)
  {
    var holders := Holders(b, LeadPhone(group[0]));
    if holders != {} {
      SettleAttaches(b, group, now);
      AttachMarks(b, group, MinOf(holders), Settle(b, group, now), id);
    } else {
      SettleCreates(b, group, now);
      AddedRows(b, Settle(b, group, now), group, b.next, Some(Winner(Rows(group)).key), id);
    }
  }

  lemma {:induction false} AttachMarks(b: Book, group: seq<Row>, holder: Id, later: Book, id: Id)
    requires IsFileGroup(group) && AreNew(b, group) && id in b.contacts && holder in b.contacts && IsAttach(b, group, holder, later)
    ensures IsMarkedSince(b, later, id)
  {
    AddedRows(b, later, group, holder, None, id);
  }

  lemma {:induction false} MarkedSinceTransitive(b: Book, mid: Book, later: Book, id: Id)
    requires IsMarkedSince(b, mid, id) && IsMarkedSince(mid, later, id) && Grows(b, mid) && Grows(mid, later)
    ensures IsMarkedSince(b, later, id)
  {
    if at :| at !in b.intake && IsOwn(later, at, id) && later.intake[at].row.doNotMail {
      assert at in mid.intake ==> IsOwn(mid, at, id);
    }
    if at :| at !in b.intake && IsOwn(mid, at, id) && mid.intake[at].row.doNotMail {
      assert IsOwn(later, at, id);
    }
    if at :| at !in mid.intake && IsOwn(later, at, id) && later.intake[at].row.doNotMail {
      assert at !in b.intake;
    }
  }

  lemma {:induction false} AllMark(b: Book, groups: seq<seq<Row>>, now: Time, id: Id)
    requires BookInv(b) && AreFileGroups(groups) && Fits(b, groups, now) && id in b.contacts
    ensures IsMarkedSince(b, SettleAll(b, groups, now), id)
  {
    if groups != [] {
      var front, last := groups[..|groups| - 1], groups[|groups| - 1];
      AllMark(b, front, now, id);
      SettleAllKeeps(b, front, now);
      LastStep(b, groups, now);
      SettleMarks(SettleAll(b, front, now), last, now, id);
      MarkedSinceTransitive(b, SettleAll(b, front, now), SettleAll(b, groups, now), id);
    }
  }

  lemma {:induction false} CreatedAreAsFiled(b: Book, groups: seq<seq<Row>>, now: Time, id: Id)
    requires BookInv(b) && AreFileGroups(groups) && Fits(b, groups, now) && PhonesApart(groups)
    requires id in SettleAll(b, groups, now).contacts && id !in b.contacts
    ensures IsAsFiled(b.tombs, SettleAll(b, groups, now), id)
  {
    AllAsFiled(b, groups, now);
    SettleAllMints(b, groups, now);
  }

  /** Each contact that a load creates is as filed. */
  lemma {:induction false} LoadCreatesAsFiled(b: Book, lines: seq<Line>, source: string, now: Time, groups: seq<seq<Row>>, later: Book, id: Id)
    requires BookInv(b) && IsLoad(b, lines, source, now, groups, later) && id in later.contacts && id !in b.contacts
    ensures IsAsFiled(b.tombs, later, id)
  {
    LoadParts(b, lines, source, groups);
    ApartFits(b, groups, now);
    CreatedAreAsFiled(b, groups, now, id);
  }

  /** Every other contact keeps all it had, but for a do-not-mail flag that rises exactly when a marked row is
      filed under it. */
  lemma {:induction false} LoadKeepsContacts(b: Book, lines: seq<Line>, source: string, now: Time, groups: seq<seq<Row>>, later: Book, id: Id)
    requires BookInv(b) && IsLoad(b, lines, source, now, groups, later) && id in b.contacts
    ensures id in later.contacts
    ensures later.contacts[id] == b.contacts[id].(lead := b.contacts[id].lead.(doNotMail := later.contacts[id].lead.doNotMail))
    ensures later.contacts[id].lead.doNotMail <==> b.contacts[id].lead.doNotMail || NewlyMarked(b, later, id)
  {
    LoadKeeps(b, lines, source, now, groups, later);
    if IsKnownSource(source) && !LacksKey(lines) {
      LoadParts(b, lines, source, groups);
      ApartFits(b, groups, now);
      AllMark(b, groups, now, id);
    }
  }
}
