/** Which rows are one business, and which of them speaks for it (resolution/pick.py). */
module Identity {
  import opened Types

  /** The part of an address that is counted; the second line is deliberately outside it. */
  datatype Address = Address(line1: Option<string>, city: Option<string>, state: Option<string>, zip: Option<string>)

  /** An accepted intake row. Its key stands for its rank among the list keys; an email is never empty. */
  datatype Row = Row(
    key: Id,
    source: string,
    phone: Option<string>,
    name: Option<string>,
    person: Option<string>,
    email: Option<string>,
    address: Address,
    line2: Option<string>,
    segment: string,
    doNotMail: bool)

  /** The intake table of a source, by its prefix. CSLB rows are identified by phone, FBN rows one by one. */
  function FamilyOf(source: string): Option<Family> {
    if "cslb" <= source then Some(Cslb)
    else if "fbn" <= source then Some(Fbn)
    else None
  }

  /** The narrower registry of what may be loaded; it routes a source to the same table. */
  predicate IsKnownSource(source: string)
    ensures IsKnownSource(source) ==> FamilyOf(source).Some?
  {
    assert "fbn-ca-" <= source ==> "fbn" <= "fbn-ca-" <= source && source[0] == 'f';
    source in {"cslb", "cslb-ca"} || "fbn-ca-" <= source
  }

  predicate HasTable(row: Row) {
    FamilyOf(row.source).Some?
  }

  function SlotOf(row: Row): Slot
    requires HasTable(row)
  {
    Slot(FamilyOf(row.source).value, row.key)
  }

  /** Rows as the intake tables can hold them: registered, and no two in one slot. */
  ghost predicate AreRows(rows: set<Row>) {
    && (forall r :: r in rows ==> HasTable(r))
    && (forall r, q :: r in rows && q in rows && SlotOf(r) == SlotOf(q) ==> r == q)
  }

  // The winner of a group.

  function Frequency(group: set<Row>, address: Address): nat {
    |set r | r in group && r.address == address|
  }

  predicate IsWinner(group: set<Row>, w: Row) {
    && w in group
    && forall r :: r in group ==>
         Frequency(group, r.address) < Frequency(group, w.address)
         || (Frequency(group, r.address) == Frequency(group, w.address) && w.key <= r.key)
  }

  /** Ahead in the pick: a more frequent address, then a lower key. */
  predicate Beats(group: set<Row>, a: Row, b: Row) {
    Frequency(group, b.address) < Frequency(group, a.address)
    || (Frequency(group, b.address) == Frequency(group, a.address) && a.key <= b.key)
  }

  lemma {:induction false} BestExists(group: set<Row>, some: set<Row>) returns (w: Row)
    requires some != {}
    ensures w in some && forall r :: r in some ==> Beats(group, w, r)
  {
    var one :| one in some;
    w := one;
    var rest := some - {one};
    assert forall r :: r in some ==> r == one || r in rest;
    if rest != {} {
      var best := BestExists(group, rest);
      if !Beats(group, one, best) {
        w := best;
      }
    }
  }

  /** A group whose rows have different keys: what one phone, or one filing, gathers. */
  ghost predicate IsGroup(group: set<Row>) {
    group != {} && forall r, q :: r in group && q in group && r.key == q.key ==> r == q
  }

  lemma {:induction false} WinnerExists(group: set<Row>)
    requires group != {}
    ensures exists w :: IsWinner(group, w)
  {
    var w := BestExists(group, group);
    assert IsWinner(group, w);
  }

  /** The pick has exactly one answer, so it cannot depend on the order of the rows. */
  lemma {:induction false} WinnerIsUnique(group: set<Row>, a: Row, b: Row)
    requires IsGroup(group) && IsWinner(group, a) && IsWinner(group, b)
    ensures a == b
  {
  }

  ghost function Winner(group: set<Row>): (w: Row)
    requires group != {}
    ensures IsWinner(group, w)
  {
    WinnerExists(group);
    var w :| IsWinner(group, w);
    w
  }

  predicate HasEmail(group: set<Row>) {
    exists r :: r in group && r.email.Some?
  }

  /** The row that gives a group its email: the winner if it has one, else the lowest key that does. */
  predicate GivesEmail(group: set<Row>, w: Row, r: Row) {
    && r in group && r.email.Some?
    && (if w.email.Some? then r == w else forall q :: q in group && q.email.Some? ==> r.key <= q.key)
  }

  predicate IsEmail(group: set<Row>, w: Row, email: Option<string>) {
    if HasEmail(group) then exists r :: r in group && GivesEmail(group, w, r) && email == r.email else email.None?
  }

  lemma {:induction false} EmailExists(group: set<Row>, w: Row)
    requires w in group && HasEmail(group)
    ensures exists r :: GivesEmail(group, w, r)
  {
    if w.email.Some? {
      assert GivesEmail(group, w, w);
    } else {
      var mailed := set q | q in group && q.email.Some?;
      var some :| some in group && some.email.Some?;
      assert some in mailed;
      var keys := set q | q in mailed :: q.key;
      assert some.key in keys;
      var least := MinOf(keys);
      var r :| r in mailed && r.key == least;
      assert forall q :: q in mailed ==> q.key in keys;
      assert GivesEmail(group, w, r);
    }
  }

  ghost function Email(group: set<Row>): (email: Option<string>)
    requires group != {}
    ensures IsEmail(group, Winner(group), email)
  {
    if !HasEmail(group) then None else
    EmailExists(group, Winner(group));
    var r :| GivesEmail(group, Winner(group), r);
    r.email
  }

  lemma {:induction false} EmailIsUnique(group: set<Row>, w: Row, a: Option<string>, b: Option<string>)
    requires IsGroup(group) && IsEmail(group, w, a) && IsEmail(group, w, b)
    ensures a == b
  {
  }

  // The picks as the code computes them.

  ghost function Rows(s: seq<Row>): set<Row> {
    set r | r in s
  }

  /** pick_winner: count the addresses, then take the lowest key among the most frequent. */
  method PickWinner(rows: seq<Row>) returns (w: Row)
    requires rows != [] && Distinct(rows) && IsGroup(Rows(rows))
    ensures w == Winner(Rows(rows))
  {
    var count := CountAddresses(rows);
    ghost var group := Rows(rows);
    w := rows[0];
    var i := 1;
    while i < |rows|
      invariant 1 <= i <= |rows| && w in rows
      invariant forall k :: 0 <= k < i ==> Beats(group, w, rows[k])
    {
      if count[w.address] < count[rows[i].address]
         || (count[w.address] == count[rows[i].address] && rows[i].key < w.key) {
        w := rows[i];
      }
      i := i + 1;
    }
    assert IsWinner(group, w);
    WinnerIsUnique(group, w, Winner(group));
  }

  method CountAddresses(rows: seq<Row>) returns (count: map<Address, nat>)
    requires Distinct(rows)
    ensures forall r :: r in rows ==> r.address in count && count[r.address] == Frequency(Rows(rows), r.address)
  {
    count := map[];
    var i := 0;
    while i < |rows|
      invariant 0 <= i <= |rows| && AreFrequencies(count, Rows(rows[..i]))
      invariant forall k :: 0 <= k < i ==> rows[k].address in count
    {
      var a := rows[i].address;
      CountOne(count, rows, i);
      count := count[a := (if a in count then count[a] else 0) + 1];
      i := i + 1;
    }
    assert rows[..|rows|] == rows;
  }

  ghost predicate AreFrequencies(count: map<Address, nat>, group: set<Row>) {
    forall a :: Frequency(group, a) == if a in count then count[a] else 0
  }

  lemma {:induction false} CountOne(count: map<Address, nat>, rows: seq<Row>, i: nat)
    requires Distinct(rows) && i < |rows| && AreFrequencies(count, Rows(rows[..i]))
    ensures var a := rows[i].address;
            AreFrequencies(count[a := (if a in count then count[a] else 0) + 1], Rows(rows[..i + 1]))
  {
    OneMore(rows, i);
  }

  lemma {:induction false} OneMore(rows: seq<Row>, i: nat)
    requires Distinct(rows) && i < |rows|
    ensures forall a :: Frequency(Rows(rows[..i + 1]), a) == Frequency(Rows(rows[..i]), a) + (if a == rows[i].address then 1 else 0)
  {
    assert rows[..i + 1] == rows[..i] + [rows[i]];
    assert Rows(rows[..i + 1]) == Rows(rows[..i]) + {rows[i]} && rows[i] !in Rows(rows[..i]);
    forall a ensures Frequency(Rows(rows[..i + 1]), a) == Frequency(Rows(rows[..i]), a) + (if a == rows[i].address then 1 else 0) {
      OneMoreRow(Rows(rows[..i]), rows[i], a);
    }
  }

  lemma {:induction false} OneMoreRow(group: set<Row>, row: Row, a: Address)
    requires row !in group
    ensures Frequency(group + {row}, a) == Frequency(group, a) + (if a == row.address then 1 else 0)
  {
    var before := set r | r in group && r.address == a;
    var after := set r | r in group + {row} && r.address == a;
    assert after == before + (if a == row.address then {row} else {});
  }

  /** coalesce_email over the whole group. */
  method CoalesceEmail(rows: seq<Row>, w: Row) returns (email: Option<string>)
    requires IsGroup(Rows(rows)) && w == Winner(Rows(rows))
    ensures email == Email(Rows(rows))
  {
    ghost var group := Rows(rows);
    if w.email.Some? {
      assert GivesEmail(group, w, w);
      EmailIsUnique(group, w, w.email, Email(group));
      return w.email;
    }
    var best: Option<Row> := None;
    var i := 0;
    while i < |rows|
      invariant 0 <= i <= |rows|
      invariant best.None? ==> forall k :: 0 <= k < i ==> rows[k].email.None?
      invariant best.Some? ==> best.value in rows && best.value.email.Some?
      invariant best.Some? ==> forall k :: 0 <= k < i && rows[k].email.Some? ==> best.value.key <= rows[k].key
    {
      if rows[i].email.Some? && (best.None? || rows[i].key < best.value.key) {
        best := Some(rows[i]);
      }
      i := i + 1;
    }
    email := if best.Some? then best.value.email else None;
    if best.Some? {
      assert GivesEmail(group, w, best.value);
    }
    EmailIsUnique(group, w, email, Email(group));
  }

  // The businesses a set of rows describes.

  /** The rows of r's business: all CSLB rows of its phone; a row without one, or a filing, is alone. */
  ghost function GroupOf(rows: set<Row>, r: Row): set<Row> {
    if FamilyOf(r.source) == Some(Cslb) && r.phone.Some?
    then set q | q in rows && FamilyOf(q.source) == Some(Cslb) && q.phone == r.phone
    else {r}
  }

  lemma {:induction false} GroupIsGroup(rows: set<Row>, r: Row)
    requires AreRows(rows) && r in rows
    ensures r in GroupOf(rows, r) && GroupOf(rows, r) <= rows && IsGroup(GroupOf(rows, r))
    ensures forall q :: q in GroupOf(rows, r) ==> GroupOf(rows, q) == GroupOf(rows, r)
    ensures forall q :: q in rows && r in GroupOf(rows, q) ==> q in GroupOf(rows, r)
  {
    forall q, p | q in GroupOf(rows, r) && p in GroupOf(rows, r) && q.key == p.key ensures q == p {
      assert SlotOf(q) == SlotOf(p);
    }
  }

  /** A contact, as far as intake writes it. */
  datatype Lead = Lead(
    phone: Option<string>,
    name: Option<string>,
    person: Option<string>,
    email: Option<string>,
    address: Address,
    line2: Option<string>,
    segment: string,
    source: string,
    doNotMail: bool)

  predicate AnyDoNotMail(group: set<Row>) {
    exists r :: r in group && r.doNotMail
  }

  /** Identity by filing never carries a phone onto the contact. */
  function LeadPhone(r: Row): Option<string> {
    if FamilyOf(r.source) == Some(Cslb) then r.phone else None
  }

  ghost function LeadFor(group: set<Row>): Lead
    requires group != {}
  {
    var w := Winner(group);
    Lead(LeadPhone(w), w.name, w.person, Email(group), w.address, w.line2, w.segment, w.source, AnyDoNotMail(group))
  }

  /** A contact together with all of its intake rows. */
  datatype Business = Business(lead: Lead, rows: set<Row>)

  /** The businesses of a set of rows, each under the slot of its primary row: a description of the
      contacts and their rows that no choice of ids, and no order of the rows, enters. */
  ghost function Businesses(rows: set<Row>): map<Slot, Business>
    requires AreRows(rows)
  {
    map s | s in Primaries(rows) :: Business(LeadFor(GroupOf(rows, RowAt(rows, s))), GroupOf(rows, RowAt(rows, s)))
  }

  ghost function RowAt(rows: set<Row>, s: Slot): (r: Row)
    requires AreRows(rows) && exists q :: q in rows && SlotOf(q) == s
    ensures r in rows && SlotOf(r) == s
    ensures GroupOf(rows, r) != {}
  {
    var r :| r in rows && SlotOf(r) == s;
    GroupIsGroup(rows, r);
    r
  }

  ghost predicate IsPrimary(rows: set<Row>, r: Row)
    requires AreRows(rows) && r in rows
  {
    GroupIsGroup(rows, r);
    Winner(GroupOf(rows, r)) == r
  }

  ghost function Primaries(rows: set<Row>): (slots: set<Slot>)
    requires AreRows(rows)
    ensures forall s :: s in slots <==> exists r :: r in rows && SlotOf(r) == s && IsPrimary(rows, r)
  {
    set r | r in rows && IsPrimary(rows, r) :: SlotOf(r)
  }

  /** Every row belongs to exactly one business. */
  lemma {:induction false} OneBusinessEach(rows: set<Row>, r: Row)
    requires AreRows(rows) && r in rows
    ensures exists s :: s in Businesses(rows) && r in Businesses(rows)[s].rows
    ensures forall s, t :: (s in Businesses(rows) && t in Businesses(rows)
                            && r in Businesses(rows)[s].rows && r in Businesses(rows)[t].rows) ==> s == t
  {
    GroupIsGroup(rows, r);
    var w := Winner(GroupOf(rows, r));
    GroupIsGroup(rows, w);
    assert IsPrimary(rows, w);
    assert RowAt(rows, SlotOf(w)) == w;
    assert r in Businesses(rows)[SlotOf(w)].rows;
    forall s | s in Businesses(rows) && r in Businesses(rows)[s].rows ensures s == SlotOf(w) {
      var p := RowAt(rows, s);
      GroupIsGroup(rows, p);
    }
  }
}
