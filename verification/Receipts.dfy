/** What a retried assignment returns, at any later time. */
module Receipts {
  import opened Types
  import opened Custody
  import opened CustodyProofs
  import opened CustodyColumns
  import opened Compliance

  lemma {:induction false} BatchesOutlive(w: World, steps: seq<Step>)
    requires CustodyInv(w.db, w.now)
    ensures Keeps(w.db, Run(w, steps).db, Run(w, steps).now)
  {
    if steps != [] {
      BatchesOutlive(w, steps[..|steps| - 1]);
      StepKeepsCustody(Run(w, steps[..|steps| - 1]), steps[|steps| - 1]);
    }
  }

  /** The opened batch row carries the call's key and request. */
  lemma {:induction false} OpenedRow(db: Db, now: Time, call: AssignCall, matches: set<Id>, batch: Id)
    requires batch !in db.batches && IsNewBatch(db, call)
    ensures var after := Assign(db, now, call, matches, batch);
            batch in after.batches && after.batches[batch].key == call.key && after.batches[batch].request == RequestOf(call)
  {
    SetOwnersLogs(WithBatch(db, now, call, matches, batch), Chosen(db, now, call, matches),
                  call.partner, ContactAssigned, "assigned", Some(batch), now);
  }

  /** Under a key a batch already holds, a call with the same request is a retry: it changes nothing. */
  lemma {:induction false} SameKeyIsRetry(db: Db, now: Time, call: AssignCall, batch: Id)
    requires CustodyInv(db, now) && batch in db.batches
    requires db.batches[batch].key == call.key && db.batches[batch].request == RequestOf(call)
    requires call.rule.None? || call.ids.None?
    ensures Refusal(db, call).Some? ==> Refusal(db, call).value in {NoPartner, InactivePartner}
    ensures Refusal(db, call).None? ==> IsRetry(db, call) && MinOf(KeyHolders(db, call.key)) == batch
    ensures forall matches, other :: Assign(db, now, call, matches, other) == db
  {
    assert batch in KeyHolders(db, call.key);
    assert KeyHolders(db, call.key) == {batch};
  }

  /** After a batch is opened, and after any further steps, the same call with the same key changes
      nothing. Unless the partner has been removed or made inactive it returns a receipt whose held and
      released leads are disjoint and together exactly the leads of the original call. */
  lemma {:induction false} RetryReturnsOriginal(w: World, call: AssignCall, matches: set<Id>, batch: Id, later: seq<Step>)
    requires CustodyInv(w.db, w.now) && batch !in w.db.batches && IsNewBatch(w.db, call)
    ensures var leads := ToSet(Chosen(w.db, w.now, call, matches));
            var end := Run(Next(w, AssignStep(call, matches, batch)), later);
            var receipt := RetryReceipt(end.db, batch);
            && (forall rematches, other :: Assign(end.db, end.now, call, rematches, other) == end.db)
            && (Refusal(end.db, call).Some? ==> Refusal(end.db, call).value in {NoPartner, InactivePartner})
            && (Refusal(end.db, call).None? ==> IsRetry(end.db, call) && MinOf(KeyHolders(end.db, call.key)) == batch)
            && (forall id :: id in receipt.held <==> id in end.db.contacts && end.db.contacts[id].batch == Some(batch))
            && ToSet(receipt.held) !! ToSet(receipt.released)
            && ToSet(receipt.held) + ToSet(receipt.released) == leads
  {
    var given := Next(w, AssignStep(call, matches, batch));
    StepKeepsCustody(w, AssignStep(call, matches, batch));
    AssignMembership(w.db, w.now, call, matches, batch);
    OpenedRow(w.db, w.now, call, matches, batch);
    BatchesOutlive(given, later);
    var end := Run(given, later);
    SameKeyIsRetry(end.db, end.now, call, batch);
    ReceiptIsMembership(end.db, end.now, batch);
    ReceiptIsExactly(end.db, batch);
  }
}
