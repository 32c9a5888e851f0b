/** The custody transactions interleaved at row-lock granularity: lock the selected rows in id order,
    decide on the post-lock rows, write them one by one, commit (service/assignment.py). A suppression, a
    clearance or a scrub row is the same with a single row. What others can read is the committed table:
    it changes at commits only, by one whole verb at a time. */
module Locks {
  import opened Types
  import opened Custody
  import opened CustodyProofs
  import opened CustodyColumns

  /** What a transaction does to each row it chooses. A suppression and a scrub row bring the owner that
      they read before they had the lock. */
  datatype Verb =
    | Assigning(partner: Id, batch: Id, count: Option<int>)
    | Reclaiming(holder: Id)
    | Expiring
    | EndingWon
    | Suppressing(scope: Scope, owner: Id)
    | Scrubbing(hit: bool, owner: Id, snapshot: Option<Id>)
    | Clearing

  predicate IsHomecoming(verb: Verb) {
    verb.Reclaiming? || verb.Expiring? || verb.EndingWon?
  }

  function Home(c: Contact): Contact {
    c.(owner := HOUSE, batch := None)
  }

  function Written(verb: Verb, now: Time, c: Contact): Contact {
    match verb
    case Assigning(partner, batch, _) => c.(owner := partner, batch := Some(batch))
    case Suppressing(scope, owner) =>
      if BlocksVoice(scope) && owner != HOUSE then Home(Flagged(c, scope)) else Flagged(c, scope)
    case Scrubbing(hit, owner, snapshot) =>
      var stamped := c.(dncCheckedAt := Some(now), dncRegistry := hit,
                        dncSnapshot := if snapshot.Some? then snapshot else c.dncSnapshot);
      if hit && owner != HOUSE then Home(stamped) else stamped
    case Clearing => c.(dncRegistry := false)
    case _ => Home(c)
  }

  /** `rows` is what the query returned once all its rows were locked; `done` counts the chosen written. */
  datatype Phase = Locking | Writing(rows: seq<Id>, chosen: seq<Id>, done: nat)

  /** `read` is what the statement saw of the other tables; `wants` are the rows still to lock, `held` the
      locks, `undo` the rows overwritten so far. */
  datatype Txn = Txn(verb: Verb, read: Db, now: Time, wants: seq<Id>, held: set<Id>, undo: map<Id, Contact>, phase: Phase)

  /** The contact rows, uncommitted writes included, and the open transactions. */
  datatype State = State(rows: map<Id, Contact>, txns: map<Id, Txn>)

  datatype Step =
    | Begin(txn: Id, verb: Verb, read: Db, now: Time, wanted: seq<Id>)
    | Lock(txn: Id)
    | Decide(txn: Id, rows: seq<Id>)
    | Write(txn: Id)
    | Commit(txn: Id)
    | Abort(txn: Id)

  predicate HeldByOther(s: State, t: Id, row: Id) {
    exists u :: u in s.txns && u != t && row in s.txns[u].held
  }

  /** The tables as the transaction sees them, with these contact rows. */
  function Seen(txn: Txn, table: map<Id, Contact>): Db {
    txn.read.(contacts := table)
  }

  /** The where-clause on a locked row as it now is; that of an assignment's rule is not ours to say. */
  predicate IsSelected(txn: Txn, c: Contact) {
    match txn.verb
    case Reclaiming(partner) => c.owner == partner
    case Expiring =>
      c.batch.Some? && c.batch.value in txn.read.batches && txn.read.batches[c.batch.value].expiresAt < txn.now
    case EndingWon => c.stage == Won && c.batch.Some?
    case _ => true
  }

  /** What the query may return: locked rows in id order, and of a return every one it selects. */
  ghost predicate AreReturned(txn: Txn, table: map<Id, Contact>, rows: seq<Id>) {
    && IsAscending(rows)
    && (forall row :: row in rows ==> row in txn.held && row in table && IsSelected(txn, table[row]))
    && (IsHomecoming(txn.verb) ==> forall row :: row in txn.held && row in table && IsSelected(txn, table[row]) ==> row in rows)
  }

  /** An assignment takes the first rows that pass the gate; any other verb takes them all. */
  function ChoiceOf(txn: Txn, table: map<Id, Contact>, rows: seq<Id>): seq<Id> {
    if txn.verb.Assigning? then FirstN(Passing(Seen(txn, table), txn.now, rows), txn.verb.count) else rows
  }

  ghost predicate Enabled(s: State, step: Step) {
    match step
    case Begin(t, _, _, _, wanted) => t !in s.txns && IsAscending(wanted) && forall row :: row in wanted ==> row in s.rows
    case Lock(t) =>
      t in s.txns && s.txns[t].phase.Locking? && s.txns[t].wants != [] && !HeldByOther(s, t, s.txns[t].wants[0])
    case Decide(t, rows) =>
      t in s.txns && s.txns[t].phase.Locking? && s.txns[t].wants == [] && AreReturned(s.txns[t], s.rows, rows)
    case Write(t) =>
      t in s.txns && s.txns[t].phase.Writing? && s.txns[t].phase.done < |s.txns[t].phase.chosen|
      && s.txns[t].phase.chosen[s.txns[t].phase.done] in s.rows
    case Commit(t) => t in s.txns && s.txns[t].phase.Writing? && s.txns[t].phase.done == |s.txns[t].phase.chosen|
    case Abort(t) => t in s.txns
  }

  ghost function Next(s: State, step: Step): State
    requires Enabled(s, step)
  {
    match step
    case Begin(t, verb, read, now, wanted) => s.(txns := s.txns[t := Txn(verb, read, now, wanted, {}, map[], Locking)])
    case Lock(t) =>
      var txn := s.txns[t];
      s.(txns := s.txns[t := txn.(wants := txn.wants[1..], held := txn.held + {txn.wants[0]})])
    case Decide(t, rows) =>
      s.(txns := s.txns[t := s.txns[t].(phase := Writing(rows, ChoiceOf(s.txns[t], s.rows, rows), 0))])
    case Write(t) =>
      var txn := s.txns[t];
      var row := txn.phase.chosen[txn.phase.done];
      State(s.rows[row := Written(txn.verb, txn.now, s.rows[row])],
            s.txns[t := txn.(undo := txn.undo[row := s.rows[row]], phase := txn.phase.(done := txn.phase.done + 1))])
    case Commit(t) => s.(txns := s.txns - {t})
    case Abort(t) => State(s.rows + s.txns[t].undo, s.txns - {t})
  }

  ghost function Run(s: State, steps: seq<Step>): State {
    if steps == [] then s else
    var before := Run(s, steps[..|steps| - 1]);
    if Enabled(before, steps[|steps| - 1]) then Next(before, steps[|steps| - 1]) else before
  }

  // A decision depends on the locked rows only.

  predicate AgreeOn(ids: set<Id>, a: map<Id, Contact>, b: map<Id, Contact>) {
    forall id :: id in ids ==> id in a && id in b && a[id] == b[id]
  }

  lemma {:induction false} GateSame(read: Db, a: map<Id, Contact>, b: map<Id, Contact>, now: Time, c: Contact)
    ensures Gate(read.(contacts := a), now, c) == Gate(read.(contacts := b), now, c)
  {
  }

  lemma {:induction false} PassingSame(read: Db, a: map<Id, Contact>, b: map<Id, Contact>, now: Time, ids: seq<Id>)
    requires forall id :: id in ids ==> id in a && id in b && a[id] == b[id]
    ensures Passing(read.(contacts := a), now, ids) == Passing(read.(contacts := b), now, ids)
  {
    if ids != [] {
      var front, last := ids[..|ids| - 1], ids[|ids| - 1];
      assert ids == front + [last];
      PassingSame(read, a, b, now, front);
      GateSame(read, a, b, now, a[last]);
    }
  }

  lemma {:induction false} DecisionSame(txn: Txn, a: map<Id, Contact>, b: map<Id, Contact>, rows: seq<Id>)
    requires AgreeOn(txn.held, a, b) && AreReturned(txn, a, rows)
    ensures AreReturned(txn, b, rows) && ChoiceOf(txn, b, rows) == ChoiceOf(txn, a, rows)
  {
    PassingSame(txn.read, a, b, txn.now, rows);
  }

  /** The choice is some of the returned rows, in id order. */
  lemma {:induction false} ChoiceAscends(txn: Txn, table: map<Id, Contact>, rows: seq<Id>)
    requires AreReturned(txn, table, rows)
    ensures var choice := ChoiceOf(txn, table, rows);
            IsAscending(choice) && forall row :: row in choice ==> row in rows && row in txn.held && row in table
  {
    if txn.verb.Assigning? {
      var passing := Passing(Seen(txn, table), txn.now, rows);
      PassingAscends(Seen(txn, table), txn.now, rows);
      var choice := FirstN(passing, txn.verb.count);
      assert forall i :: 0 <= i < |choice| ==> choice[i] == passing[i];
    }
  }

  // The invariant.

  ghost predicate LocksSound(s: State, txn: Txn) {
    && IsAscending(txn.wants)
    && (forall row, i :: row in txn.held && 0 <= i < |txn.wants| ==> row < txn.wants[i])
    && (forall row :: row in txn.held || row in txn.wants ==> row in s.rows)
  }

  /** The rows without what this transaction has written. */
  function Base(s: State, txn: Txn): map<Id, Contact> {
    s.rows + txn.undo
  }

  ghost predicate IsDecided(s: State, txn: Txn) {
    txn.phase.Writing? ==>
      && txn.phase.done <= |txn.phase.chosen|
      && AreReturned(txn, Base(s, txn), txn.phase.rows)
      && txn.phase.chosen == ChoiceOf(txn, Base(s, txn), txn.phase.rows)
  }

  /** Exactly the rows done are overwritten, and nobody has touched them since. */
  ghost predicate WritesSound(s: State, txn: Txn) {
    && txn.undo.Keys <= txn.held
    && (txn.phase.Locking? ==> txn.undo == map[])
    && (txn.phase.Writing? ==>
          && txn.phase.done <= |txn.phase.chosen|
          && forall row :: row in txn.undo <==> row in txn.phase.chosen[..txn.phase.done])
    && (forall row :: row in txn.undo ==> row in s.rows && s.rows[row] == Written(txn.verb, txn.now, txn.undo[row]))
  }

  ghost predicate TxnSound(s: State, t: Id)
    requires t in s.txns
  {
    LocksSound(s, s.txns[t]) && WritesSound(s, s.txns[t]) && IsDecided(s, s.txns[t])
  }

  ghost predicate LocksExclusive(s: State) {
    forall t, u :: t in s.txns && u in s.txns && t != u ==> s.txns[t].held !! s.txns[u].held
  }

  ghost predicate Inv(s: State) {
    LocksExclusive(s) && forall t :: t in s.txns ==> TxnSound(s, t)
  }

  /** Rows outside a transaction's locks look the same to it. */
  lemma {:induction false} OthersUnmoved(s: State, s': State, t: Id)
    requires t in s.txns && TxnSound(s, t) && t in s'.txns && s'.txns[t] == s.txns[t]
    requires s'.rows.Keys == s.rows.Keys && AgreeOn(s.txns[t].held, s.rows, s'.rows)
    ensures TxnSound(s', t)
  {
    var txn := s.txns[t];
    if txn.phase.Writing? {
      DecisionSame(txn, Base(s, txn), Base(s', txn), txn.phase.rows);
    }
  }

  lemma {:induction false} LockKeeps(s: State, t: Id)
    requires Inv(s) && Enabled(s, Lock(t))
    ensures Inv(Next(s, Lock(t)))
  {
    var s' := Next(s, Lock(t));
    assert TxnSound(s, t);
    assert s.txns[t].wants[0] in s.txns[t].wants;
    forall u | u in s'.txns ensures TxnSound(s', u) {
      if u != t {
        OthersUnmoved(s, s', u);
      }
    }
  }

  lemma {:induction false} DecideKeeps(s: State, t: Id, rows: seq<Id>)
    requires Inv(s) && Enabled(s, Decide(t, rows))
    ensures Inv(Next(s, Decide(t, rows)))
  {
    var s' := Next(s, Decide(t, rows));
    assert TxnSound(s, t);
    assert Base(s', s'.txns[t]) == s.rows;
    DecisionSame(s'.txns[t], s.rows, s.rows, rows);
    forall u | u in s'.txns ensures TxnSound(s', u) {
      if u != t {
        OthersUnmoved(s, s', u);
      }
    }
  }

  lemma {:induction false} WriteKeeps(s: State, t: Id)
    requires Inv(s) && Enabled(s, Write(t))
    ensures Inv(Next(s, Write(t)))
  {
    var s' := Next(s, Write(t));
    WrittenIsHeld(s, t);
    forall u | u in s'.txns ensures TxnSound(s', u) {
      if u != t {
        OtherStaysSound(s, t, u);
      } else {
        WriterStaysSound(s, t);
      }
    }
  }

  lemma {:induction false} WrittenIsHeld(s: State, t: Id)
    requires Inv(s) && Enabled(s, Write(t))
    ensures var written := s.txns[t].phase.chosen[s.txns[t].phase.done];
            written in s.txns[t].held && written !in s.txns[t].undo
  {
    assert TxnSound(s, t);
    var txn := s.txns[t];
    ChoiceAscends(txn, Base(s, txn), txn.phase.rows);
    assert txn.phase.chosen[txn.phase.done] in txn.phase.chosen;
  }

  lemma {:induction false} OtherStaysSound(s: State, t: Id, u: Id)
    requires Inv(s) && Enabled(s, Write(t)) && u in s.txns && u != t
    ensures TxnSound(Next(s, Write(t)), u)
  {
    WrittenIsHeld(s, t);
    assert s.txns[u].held !! s.txns[t].held;
    assert TxnSound(s, u);
    OthersUnmoved(s, Next(s, Write(t)), u);
  }

  lemma {:induction false} WriterStaysSound(s: State, t: Id)
    requires Enabled(s, Write(t)) && TxnSound(s, t)
    ensures TxnSound(Next(s, Write(t)), t)
  {
    var s', txn := Next(s, Write(t)), s.txns[t];
    var k := txn.phase.done;
    var row := txn.phase.chosen[k];
    ChoiceAscends(txn, Base(s, txn), txn.phase.rows);
    assert row in txn.phase.chosen;
    OneMoreDone(txn.phase.chosen, k);
    assert Base(s', s'.txns[t]) == Base(s, txn);
    SameTerms(txn, s'.txns[t], Base(s, txn), txn.phase.rows);
  }

  lemma {:induction false} OneMoreDone(chosen: seq<Id>, k: nat)
    requires k < |chosen| && IsAscending(chosen)
    ensures chosen[k] !in chosen[..k] && forall row :: row in chosen[..k + 1] <==> row in chosen[..k] || row == chosen[k]
  {
    assert chosen[..k + 1] == chosen[..k] + [chosen[k]];
  }

  /** A decision does not look at how far its writes have got. */
  lemma {:induction false} SameTerms(txn: Txn, later: Txn, table: map<Id, Contact>, rows: seq<Id>)
    requires later == txn.(undo := later.undo, phase := later.phase)
    ensures AreReturned(txn, table, rows) <==> AreReturned(later, table, rows)
    ensures ChoiceOf(later, table, rows) == ChoiceOf(txn, table, rows)
  {
  }

  lemma {:induction false} AbortKeeps(s: State, t: Id)
    requires Inv(s) && Enabled(s, Abort(t))
    ensures Inv(Next(s, Abort(t)))
  {
    var s' := Next(s, Abort(t));
    assert TxnSound(s, t);
    assert s'.rows.Keys == s.rows.Keys;
    forall u | u in s'.txns ensures TxnSound(s', u) {
      assert TxnSound(s, u);
      assert s.txns[u].held !! s.txns[t].held;
      OthersUnmoved(s, s', u);
    }
  }

  lemma {:induction false} BeginKeeps(s: State, step: Step)
    requires Inv(s) && Enabled(s, step) && step.Begin?
    ensures Inv(Next(s, step))
  {
    var s' := Next(s, step);
    forall u | u in s'.txns ensures TxnSound(s', u) {
      if u != step.txn {
        assert TxnSound(s, u);
        OthersUnmoved(s, s', u);
      }
    }
  }

  lemma {:induction false} CommitKeeps(s: State, t: Id)
    requires Inv(s) && Enabled(s, Commit(t))
    ensures Inv(Next(s, Commit(t)))
  {
    var s' := Next(s, Commit(t));
    forall u | u in s'.txns ensures TxnSound(s', u) {
      assert TxnSound(s, u);
      OthersUnmoved(s, s', u);
    }
  }

  lemma {:induction false} StepKeeps(s: State, step: Step)
    requires Inv(s) && Enabled(s, step)
    ensures Inv(Next(s, step))
  {
    match step
    case Begin(_, _, _, _, _) => BeginKeeps(s, step);
    case Lock(t) => LockKeeps(s, t);
    case Decide(t, rows) => DecideKeeps(s, t, rows);
    case Write(t) => WriteKeeps(s, t);
    case Commit(t) => CommitKeeps(s, t);
    case Abort(t) => AbortKeeps(s, t);
  }

  lemma {:induction false} InvEverywhere(rows: map<Id, Contact>, steps: seq<Step>)
    ensures Inv(Run(State(rows, map[]), steps))
  {
    if steps != [] {
      InvEverywhere(rows, steps[..|steps| - 1]);
      var before := Run(State(rows, map[]), steps[..|steps| - 1]);
      if Enabled(before, steps[|steps| - 1]) {
        StepKeeps(before, steps[|steps| - 1]);
      }
    }
  }

  // No deadlock.

  ghost predicate Waits(s: State, t: Id) {
    && t in s.txns && s.txns[t].phase.Locking? && s.txns[t].wants != []
    && HeldByOther(s, t, s.txns[t].wants[0])
  }

  /** Some open transaction can go forward, without anything being aborted. */
  ghost predicate CanProgress(s: State) {
    exists t :: t in s.txns &&
      (Enabled(s, Lock(t)) || (exists rows :: Enabled(s, Decide(t, rows))) || Enabled(s, Write(t)) || Enabled(s, Commit(t)))
  }

  lemma {:induction false} NotWaitingProgresses(s: State, t: Id)
    requires Inv(s) && t in s.txns && !Waits(s, t)
    ensures CanProgress(s)
  {
    assert TxnSound(s, t);
    var txn := s.txns[t];
    if txn.phase.Locking? {
      if txn.wants == [] {
        var selected := set row | row in txn.held && row in s.rows && IsSelected(txn, s.rows[row]);
        assert Enabled(s, Decide(t, Ascending(selected)));
      } else {
        assert Enabled(s, Lock(t));
      }
    } else if txn.phase.done == |txn.phase.chosen| {
      assert Enabled(s, Commit(t));
    } else {
      ChoiceAscends(txn, Base(s, txn), txn.phase.rows);
      assert txn.phase.chosen[txn.phase.done] in txn.phase.chosen;
      assert Enabled(s, Write(t));
    }
  }

  /** Of finitely many waiting transactions, one waits for the highest row. */
  lemma {:induction false} HighestWaiter(s: State, waiting: set<Id>) returns (t: Id)
    requires waiting != {} && forall u :: u in waiting ==> Waits(s, u)
    ensures t in waiting && Waits(s, t)
    ensures forall u :: u in waiting ==> Waits(s, u) && s.txns[u].wants[0] <= s.txns[t].wants[0]
  {
    t :| t in waiting;
    if waiting != {t} {
      var other := HighestWaiter(s, waiting - {t});
      if s.txns[t].wants[0] < s.txns[other].wants[0] {
        t := other;
      }
    }
  }

  /** Whoever holds the highest row that anyone waits for is not waiting: rows are locked in id order,
      so it would be waiting for a higher row still. */
  lemma {:induction false} HolderOfHighestIsFree(s: State, t: Id) returns (u: Id)
    requires Inv(s) && Waits(s, t)
    requires forall v :: v in s.txns && Waits(s, v) ==> s.txns[v].wants[0] <= s.txns[t].wants[0]
    ensures u in s.txns && !Waits(s, u)
  {
    u :| u in s.txns && u != t && s.txns[t].wants[0] in s.txns[u].held;
    assert TxnSound(s, u);
  }

  /** No reachable state is deadlocked: while any transaction is open, one of them can lock, decide,
      write or commit. */
  lemma {:induction false} NeverDeadlocked(rows: map<Id, Contact>, steps: seq<Step>)
    ensures var s := Run(State(rows, map[]), steps);
            s.txns.Keys != {} ==> CanProgress(s)
  {
    InvEverywhere(rows, steps);
    var s := Run(State(rows, map[]), steps);
    var waiting := set u | u in s.txns && Waits(s, u);
    if waiting != {} {
      var t := HighestWaiter(s, waiting);
      var u := HolderOfHighestIsFree(s, t);
      NotWaitingProgresses(s, u);
    } else if t :| t in s.txns {
      assert t !in waiting;
      NotWaitingProgresses(s, t);
    }
  }

  // One whole verb at a time.

  predicate IsDirty(s: State, t: Id, row: Id) {
    t in s.txns && row in s.txns[t].undo
  }

  ghost function CommittedRow(s: State, row: Id): Contact
    requires row in s.rows
  {
    if exists t :: IsDirty(s, t, row) then
      var t :| IsDirty(s, t, row);
      s.txns[t].undo[row]
    else s.rows[row]
  }

  /** The rows as everyone but their writers sees them. */
  ghost function Committed(s: State): map<Id, Contact> {
    map row | row in s.rows :: CommittedRow(s, row)
  }

  /** At most one transaction has overwritten a row, and it holds the lock. */
  lemma {:induction false} OneWriter(s: State, t: Id, u: Id, row: Id)
    requires Inv(s) && t in s.txns && row in s.txns[t].held && IsDirty(s, u, row)
    ensures u == t
  {
    assert TxnSound(s, u);
    assert row in s.txns[u].held && row in s.txns[t].held;
  }

  lemma {:induction false} CleanIsCommitted(s: State, row: Id)
    requires row in s.rows && forall t :: !IsDirty(s, t, row)
    ensures Committed(s)[row] == s.rows[row]
  {
  }

  /** A row that one transaction has overwritten, and no other, is committed as it was. */
  lemma {:induction false} DirtyIsCommitted(s: State, t: Id, row: Id)
    requires row in s.rows && IsDirty(s, t, row) && forall u :: IsDirty(s, u, row) ==> u == t
    ensures Committed(s)[row] == s.txns[t].undo[row]
  {
  }

  /** What a transaction has overwritten is committed as its undo has it. */
  lemma {:induction false} OwnWrite(s: State, t: Id, row: Id)
    requires Inv(s) && IsDirty(s, t, row)
    ensures row in s.rows && Committed(s)[row] == s.txns[t].undo[row]
  {
    assert TxnSound(s, t);
    forall u | IsDirty(s, u, row) ensures u == t {
      OneWriter(s, t, u, row);
    }
    DirtyIsCommitted(s, t, row);
  }

  /** What it has locked and not overwritten is committed as it stands. */
  lemma {:induction false} NotYetWritten(s: State, t: Id, row: Id)
    requires Inv(s) && t in s.txns && row in s.txns[t].held && row !in s.txns[t].undo
    ensures row in s.rows && Committed(s)[row] == s.rows[row]
  {
    assert TxnSound(s, t);
    forall u ensures !IsDirty(s, u, row) {
      if IsDirty(s, u, row) {
        OneWriter(s, t, u, row);
      }
    }
    CleanIsCommitted(s, row);
  }

  /** Under its own locks a transaction sees the committed rows, but for what it has written itself. */
  lemma {:induction false} HeldIsCommitted(s: State, t: Id)
    requires Inv(s) && t in s.txns
    ensures AgreeOn(s.txns[t].held, Base(s, s.txns[t]), Committed(s))
  {
    forall row | row in s.txns[t].held ensures row in s.rows && Base(s, s.txns[t])[row] == Committed(s)[row] {
      if row in s.txns[t].undo {
        OwnWrite(s, t, row);
      } else {
        NotYetWritten(s, t, row);
      }
    }
  }

  /** Nothing of a row changes for the others if it is dirty, or clean, as before. */
  lemma {:induction false} RowStays(s: State, s': State, row: Id)
    requires Inv(s) && row in s.rows && row in s'.rows && s'.rows[row] == s.rows[row]
    requires forall u :: IsDirty(s', u, row) <==> IsDirty(s, u, row)
    requires forall u :: IsDirty(s, u, row) && IsDirty(s', u, row) ==> s'.txns[u].undo[row] == s.txns[u].undo[row]
    ensures Committed(s')[row] == Committed(s)[row]
  {
    if t :| IsDirty(s, t, row) {
      assert TxnSound(s, t);
      forall u | IsDirty(s, u, row) ensures u == t {
        OneWriter(s, t, u, row);
      }
      DirtyIsCommitted(s, t, row);
      DirtyIsCommitted(s', t, row);
    } else {
      CleanIsCommitted(s, row);
      CleanIsCommitted(s', row);
    }
  }

  /** Before the end of a transaction the committed table stays as it is. */
  lemma {:induction false} OpenStepsCommitNothing(s: State, step: Step)
    requires Inv(s) && Enabled(s, step) && !step.Commit?
    ensures Committed(Next(s, step)) == Committed(s)
  {
    if step.Write? {
      WriteCommitsNothing(s, step.txn);
    } else if step.Abort? {
      AbortCommitsNothing(s, step.txn);
    } else {
      NothingOverwritten(s, step);
      SameUndoSame(s, Next(s, step));
    }
  }

  /** No row and no undo differs. */
  ghost predicate SameUndo(s: State, s': State) {
    && s'.rows == s.rows
    && (forall u, row :: IsDirty(s', u, row) <==> IsDirty(s, u, row))
    && (forall u, row :: IsDirty(s', u, row) && IsDirty(s, u, row) ==> s'.txns[u].undo[row] == s.txns[u].undo[row])
  }

  lemma {:induction false} SameUndoSame(s: State, s': State)
    requires Inv(s) && SameUndo(s, s')
    ensures Committed(s') == Committed(s)
  {
    forall row | row in s.rows ensures Committed(s')[row] == Committed(s)[row] {
      RowStays(s, s', row);
    }
    SameTable(Committed(s), Committed(s'));
  }

  lemma {:induction false} NothingOverwritten(s: State, step: Step)
    requires Inv(s) && Enabled(s, step) && (step.Begin? || step.Lock? || step.Decide?)
    ensures SameUndo(s, Next(s, step))
  {
    var s', t := Next(s, step), step.txn;
    assert s'.rows == s.rows && forall u :: u in s.txns && u != t ==> u in s'.txns && s'.txns[u] == s.txns[u];
    if !step.Begin? {
      assert s'.txns[t].undo == s.txns[t].undo;
    }
  }

  lemma {:induction false} WriteCommitsNothing(s: State, t: Id)
    requires Inv(s) && Enabled(s, Write(t))
    ensures Committed(Next(s, Write(t))) == Committed(s)
  {
    var s' := Next(s, Write(t));
    assert s'.rows.Keys == s.rows.Keys;
    forall row | row in s.rows ensures Committed(s')[row] == Committed(s)[row] {
      WrittenRow(s, t, row);
    }
    SameTable(Committed(s), Committed(s'));
  }

  lemma {:induction false} WrittenRow(s: State, t: Id, row: Id)
    requires Inv(s) && Enabled(s, Write(t)) && row in s.rows
    ensures Committed(Next(s, Write(t)))[row] == Committed(s)[row]
  {
    var s' := Next(s, Write(t));
    if row == s.txns[t].phase.chosen[s.txns[t].phase.done] {
      WrittenIsHeld(s, t);
      NotYetWritten(s, t, row);
      WriteKeeps(s, t);
      OwnWrite(s', t, row);
    } else {
      RowStays(s, s', row);
    }
  }

  lemma {:induction false} AbortCommitsNothing(s: State, t: Id)
    requires Inv(s) && Enabled(s, Abort(t))
    ensures Committed(Next(s, Abort(t))) == Committed(s)
  {
    var s' := Next(s, Abort(t));
    AbortKeepsRows(s, t);
    forall row | row in s.rows ensures Committed(s')[row] == Committed(s)[row] {
      AbortedRow(s, t, row);
    }
    SameTable(Committed(s), Committed(s'));
  }

  lemma {:induction false} AbortKeepsRows(s: State, t: Id)
    requires Inv(s) && Enabled(s, Abort(t))
    ensures Next(s, Abort(t)).rows.Keys == s.rows.Keys
  {
    assert TxnSound(s, t);
  }

  lemma {:induction false} SameTable(a: map<Id, Contact>, b: map<Id, Contact>)
    requires a.Keys == b.Keys && forall row :: row in a ==> b[row] == a[row]
    ensures a == b
  {
  }

  lemma {:induction false} AbortedRow(s: State, t: Id, row: Id)
    requires Inv(s) && Enabled(s, Abort(t)) && row in s.rows
    ensures Committed(Next(s, Abort(t)))[row] == Committed(s)[row]
  {
    var s' := Next(s, Abort(t));
    if row in s.txns[t].undo {
      OwnWrite(s, t, row);
      NoneLeft(s, t, row);
      CleanIsCommitted(s', row);
    } else {
      RowStays(s, s', row);
    }
  }

  /** Once its writer is gone a row is clean. */
  lemma {:induction false} NoneLeft(s: State, t: Id, row: Id)
    requires Inv(s) && IsDirty(s, t, row)
    ensures forall u :: u in s.txns - {t} ==> !IsDirty(s, u, row)
  {
    assert TxnSound(s, t);
    forall u | u in s.txns - {t} ensures !IsDirty(s, u, row) {
      if IsDirty(s, u, row) {
        OneWriter(s, t, u, row);
      }
    }
  }

  /** The verb of a transaction, on a whole table at once: it chooses from the rows of its query as the
      table has them, and writes what it chose. */
  ghost predicate IsVerbOn(txn: Txn, before: map<Id, Contact>, after: map<Id, Contact>) {
    && txn.phase.Writing? && AreReturned(txn, before, txn.phase.rows)
    && txn.phase.chosen == ChoiceOf(txn, before, txn.phase.rows)
    && after == AfterVerb(txn, before, txn.phase.chosen)
  }

  function AfterVerb(txn: Txn, table: map<Id, Contact>, chosen: seq<Id>): map<Id, Contact> {
    map row | row in table :: if row in chosen then Written(txn.verb, txn.now, table[row]) else table[row]
  }

  lemma {:induction false} CommitIsAtomic(s: State, t: Id)
    requires Inv(s) && Enabled(s, Commit(t))
    ensures IsVerbOn(s.txns[t], Committed(s), Committed(Next(s, Commit(t))))
  {
    var s', txn := Next(s, Commit(t)), s.txns[t];
    assert TxnSound(s, t);
    HeldIsCommitted(s, t);
    DecisionSame(txn, Base(s, txn), Committed(s), txn.phase.rows);
    assert txn.phase.chosen[..|txn.phase.chosen|] == txn.phase.chosen;
    CommitWrites(s, t, Committed(s), Committed(s'));
  }

  lemma {:induction false} CommitWrites(s: State, t: Id, before: map<Id, Contact>, after: map<Id, Contact>)
    requires Inv(s) && Enabled(s, Commit(t)) && before == Committed(s) && after == Committed(Next(s, Commit(t)))
    requires forall row :: row in s.txns[t].undo <==> row in s.txns[t].phase.chosen
    ensures after == AfterVerb(s.txns[t], before, s.txns[t].phase.chosen)
  {
    var txn := s.txns[t];
    var whole := AfterVerb(txn, before, txn.phase.chosen);
    assert after.Keys == whole.Keys;
    forall row | row in after ensures whole[row] == after[row] {
      CommittedAfter(s, t, row);
      assert row in txn.phase.chosen <==> row in txn.undo;
    }
    SameTable(after, whole);
  }

  lemma {:induction false} CommittedAfter(s: State, t: Id, row: Id)
    requires Inv(s) && Enabled(s, Commit(t)) && row in s.rows
    ensures Committed(Next(s, Commit(t)))[row]
            == if row in s.txns[t].undo then Written(s.txns[t].verb, s.txns[t].now, Committed(s)[row]) else Committed(s)[row]
  {
    var s', txn := Next(s, Commit(t)), s.txns[t];
    assert TxnSound(s, t);
    if row in txn.undo {
      OwnWrite(s, t, row);
      NoneLeft(s, t, row);
      CleanIsCommitted(s', row);
    } else {
      RowStays(s, s', row);
    }
  }

  /** In every run the committed table moves by whole verbs: a commit carries out its verb on the table as
      it is committed then, whatever the others have half done; no other step changes what they see. */
  lemma {:induction false} OneVerbAtATime(rows: map<Id, Contact>, steps: seq<Step>, step: Step)
    requires Enabled(Run(State(rows, map[]), steps), step)
    ensures var s := Run(State(rows, map[]), steps);
            if step.Commit? then IsVerbOn(s.txns[step.txn], Committed(s), Committed(Next(s, step)))
            else Committed(Next(s, step)) == Committed(s)
  {
    InvEverywhere(rows, steps);
    if step.Commit? {
      CommitIsAtomic(Run(State(rows, map[]), steps), step.txn);
    } else {
      OpenStepsCommitNothing(Run(State(rows, map[]), steps), step);
    }
  }

  // The atomic verbs are custody's.

  /** An assignment: the rows it commits are those of Custody.Assign on the committed table. */
  lemma {:induction false} AssignmentIsCustodys(txn: Txn, before: map<Id, Contact>, after: map<Id, Contact>, call: AssignCall, matches: set<Id>)
    requires IsVerbOn(txn, before, after) && txn.verb.Assigning? && txn.verb.partner == call.partner
    requires IsNewBatch(Seen(txn, before), call) && CountOf(Seen(txn, before), call) == txn.verb.count
    requires Candidates(Seen(txn, before), call, matches) == txn.phase.rows
    ensures after == Assign(Seen(txn, before), txn.now, call, matches, txn.verb.batch).contacts
  {
    var db := Seen(txn, before);
    assert Chosen(db, txn.now, call, matches) == txn.phase.chosen;
    MovedAsCustody(txn, before, WithBatch(db, txn.now, call, matches, txn.verb.batch), txn.phase.chosen, call.partner);
  }

  lemma {:induction false} MovedAsCustody(txn: Txn, before: map<Id, Contact>, ready: Db, chosen: seq<Id>, partner: Id)
    requires txn.verb.Assigning? && txn.verb.partner == partner && ready.contacts == before
    requires forall id :: id in chosen ==> id in before
    ensures AfterVerb(txn, before, chosen)
            == SetOwners(ready, chosen, partner, ContactAssigned, "assigned", Some(txn.verb.batch), txn.now).contacts
  {
    SetOwnersMoves(ready, chosen, partner, ContactAssigned, "assigned", Some(txn.verb.batch), txn.now);
  }

  /** A return: those of the single custody writer over the rows it chose. */
  lemma {:induction false} ReturnIsCustodys(txn: Txn, before: map<Id, Contact>, after: map<Id, Contact>, kind: EventType, reason: string)
    requires IsVerbOn(txn, before, after) && IsHomecoming(txn.verb)
    ensures forall row :: row in txn.phase.chosen ==> row in before
    ensures after == SetOwners(Seen(txn, before), txn.phase.chosen, HOUSE, kind, reason, None, txn.now).contacts
  {
    SetOwnersMoves(Seen(txn, before), txn.phase.chosen, HOUSE, kind, reason, None, txn.now);
  }

  /** A return of these leads is whole exactly when it holds the lock of each. */
  lemma {:induction false} ReturnIsWholeWhen(txn: Txn, before: map<Id, Contact>, after: map<Id, Contact>, leads: set<Id>, whole: map<Id, Contact>)
    requires IsVerbOn(txn, before, after) && IsHomecoming(txn.verb) && leads <= before.Keys && whole.Keys == before.Keys
    requires forall row :: row in before ==> (row in leads <==> IsSelected(txn, before[row]))
    requires forall row :: row in before ==> whole[row] == if row in leads then Home(before[row]) else before[row]
    requires forall row :: row in leads ==> Home(before[row]) != before[row]
    ensures after == whole <==> leads <= txn.held
  {
    forall row | row in before ensures after[row] == whole[row] <==> (row in leads ==> row in txn.held) {
      assert row in txn.phase.rows <==> row in txn.held && row in leads;
    }
    if whole == after {
      assert forall row :: row in before ==> after[row] == whole[row];
    }
  }

  /** A reclaim is Custody.Reclaim on the committed table exactly when it holds the lock of every lead the
      partner has by then: a lead sold to the partner after the query began stays with the partner. */
  lemma {:induction false} ReclaimIsCustodysWhen(txn: Txn, before: map<Id, Contact>, after: map<Id, Contact>, reason: string)
    requires IsVerbOn(txn, before, after) && txn.verb.Reclaiming? && txn.verb.holder != HOUSE && HasWord(reason)
    ensures after == Reclaim(Seen(txn, before), txn.now, txn.verb.holder, reason).contacts
            <==> OwnedBy(Seen(txn, before), txn.verb.holder) <= txn.held
  {
    var db := Seen(txn, before);
    ReclaimSendsHome(db, txn.now, txn.verb.holder, reason);
    ReturnIsWholeWhen(txn, before, after, OwnedBy(db, txn.verb.holder), Reclaim(db, txn.now, txn.verb.holder, reason).contacts);
  }

  /** An expiry step is Custody.Expire on the committed table exactly when it holds the lock of every lead
      that is overdue there. */
  lemma {:induction false} ExpiryIsCustodysWhen(txn: Txn, before: map<Id, Contact>, after: map<Id, Contact>)
    requires IsVerbOn(txn, before, after) && txn.verb.Expiring?
    ensures after == Expire(Seen(txn, before), txn.now).contacts <==> Overdue(Seen(txn, before), txn.now) <= txn.held
  {
    var db := Seen(txn, before);
    ExpirySendsHome(db, txn.now);
    ReturnIsWholeWhen(txn, before, after, Overdue(db, txn.now), Expire(db, txn.now).contacts);
  }

  /** A won step is Custody.TerminateWon on the committed table exactly when it holds the lock of every won
      lead that points at a batch there. */
  lemma {:induction false} WonIsCustodysWhen(txn: Txn, before: map<Id, Contact>, after: map<Id, Contact>)
    requires IsVerbOn(txn, before, after) && txn.verb.EndingWon?
    ensures after == TerminateWon(Seen(txn, before), txn.now).contacts <==> WonAndHeld(Seen(txn, before)) <= txn.held
  {
    var db := Seen(txn, before);
    WonStepSendsHome(db, txn.now);
    ReturnIsWholeWhen(txn, before, after, WonAndHeld(db), TerminateWon(db, txn.now).contacts);
  }

  /** The single-row verbs: a suppression, a scrub row and a clearance of the row they chose. */
  lemma {:induction false} SingleRowIsCustodys(txn: Txn, before: map<Id, Contact>, after: map<Id, Contact>, s: Suppression, row: DueRow)
    requires IsVerbOn(txn, before, after) && txn.phase.chosen == [s.id] && row.id == s.id
    ensures s.id in before
    ensures var db := Seen(txn, before);
            && (txn.verb.Suppressing? && txn.verb.scope == s.scope ==> after == SuppressAs(db, txn.now, s, txn.verb.owner).contacts)
            && (txn.verb.Scrubbing? && txn.verb.owner == row.owner ==>
                  after == ApplyRow(db, txn.now, row, txn.verb.hit, "", txn.verb.snapshot).contacts)
            && (txn.verb.Clearing? ==> after == ClearRegistry(db, txn.now, s.id, Human, None).contacts)
  {
    assert s.id in txn.phase.chosen && s.id in txn.phase.rows;
  }

  /** So a lead in one batch never goes straight into another, and no lead is handed over while flagged:
      what an assignment commits was unheld, at home and callable in the committed table at that moment. */
  lemma {:induction false} NeverTakenOver(rows: map<Id, Contact>, steps: seq<Step>, t: Id, row: Id)
    requires var s := Run(State(rows, map[]), steps);
             Enabled(s, Commit(t)) && s.txns[t].verb.Assigning? && row in s.txns[t].phase.chosen
    ensures var before := Committed(Run(State(rows, map[]), steps));
            && row in before
            && before[row].owner == HOUSE && before[row].batch.None? && !before[row].isSeed && before[row].phone.Some?
            && !before[row].doNotCall && !before[row].dncRegistry && before[row].stage in {Prospect, InSequence, Lost}
  {
    OneVerbAtATime(rows, steps, Commit(t));
    var s := Run(State(rows, map[]), steps);
    ChosenPasses(s.txns[t], Committed(s), row);
    GateMeaning(Seen(s.txns[t], Committed(s)), s.txns[t].now, Committed(s)[row]);
  }

  lemma {:induction false} ChosenPasses(txn: Txn, table: map<Id, Contact>, row: Id)
    requires txn.verb.Assigning? && txn.phase.Writing? && txn.phase.chosen == ChoiceOf(txn, table, txn.phase.rows)
    requires row in txn.phase.chosen
    ensures Passes(Seen(txn, table), txn.now, row)
  {
    var passing := Passing(Seen(txn, table), txn.now, txn.phase.rows);
    assert forall i :: 0 <= i < |txn.phase.chosen| ==> txn.phase.chosen[i] == passing[i];
    assert row in passing;
  }
}
