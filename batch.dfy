/** The bulk status update behind `POST /employees/submit-swift`:
    `Payment.updateMany({ _id: { $in: ids } }, { $set: { status: "Submitted" } })`, stated as a
    function of the payment store. The payment schema has timestamps, so the update also sets
    `updatedAt` to the time of the call, and the count MongoDB reports (`modifiedCount`) is the
    number of matched payments whose stored document actually changed. Nothing here looks at
    ownership, amount or the current status. */
module Batch {
  import opened Base
  import opened Records

  /** One matched payment after the update. */
  function SubmitOne(p: Payment, nowMs: nat): Payment {
    p.(status := StatusSubmitted, updatedAt := nowMs)
  }

  /** The store after the update: every stored payment whose id is listed is submitted. */
  function ApplySubmit(payments: map<Id, Payment>, ids: set<Id>, nowMs: nat): (r: map<Id, Payment>)
    ensures r.Keys == payments.Keys
    ensures forall k :: k in r ==> r[k].id == payments[k].id
  {
    map k | k in payments :: if k in ids then SubmitOne(payments[k], nowMs) else payments[k]
  }

  /** Whether the update would change this stored payment. */
  predicate Changes(p: Payment, nowMs: nat)
    ensures Changes(p, nowMs) <==> SubmitOne(p, nowMs) != p
  {
    p.status != StatusSubmitted || p.updatedAt != nowMs
  }

  /** The matched payments the update changes; `modifiedCount` is their number. */
  function Modified(payments: map<Id, Payment>, ids: set<Id>, nowMs: nat): (r: set<Id>)
    ensures r <= payments.Keys * ids
    ensures forall k :: k in r ==> SubmitOne(payments[k], nowMs) != payments[k]
  {
    set k | k in payments && k in ids && Changes(payments[k], nowMs)
  }

  /** The count is exactly the number of stored payments that differ after the update. */
  lemma ModifiedAreTheChanged(payments: map<Id, Payment>, ids: set<Id>, nowMs: nat)
    ensures forall k :: k in Modified(payments, ids, nowMs) <==>
              k in payments && ApplySubmit(payments, ids, nowMs)[k] != payments[k]
  {
  }

  /** Every listed stored payment ends up "Submitted", whatever its status was; no other payment
      changes; and a listed payment changes in status and update time only. */
  lemma SubmitEffect(payments: map<Id, Payment>, ids: set<Id>, nowMs: nat)
    ensures forall k :: k in payments && k in ids ==>
              ApplySubmit(payments, ids, nowMs)[k].status == StatusSubmitted
    ensures forall k :: k in payments && k !in ids ==>
              ApplySubmit(payments, ids, nowMs)[k] == payments[k]
    ensures forall k :: k in payments ==>
              ApplySubmit(payments, ids, nowMs)[k]
                == payments[k].(status := ApplySubmit(payments, ids, nowMs)[k].status,
                                updatedAt := ApplySubmit(payments, ids, nowMs)[k].updatedAt)
  {
  }

  /** Status only moves forward: it stays what it was or becomes "Submitted", and "Submitted" stays. */
  lemma StatusMonotone(payments: map<Id, Payment>, ids: set<Id>, nowMs: nat)
    ensures forall k :: k in payments ==>
              ApplySubmit(payments, ids, nowMs)[k].status in {payments[k].status, StatusSubmitted}
    ensures forall k :: k in payments && payments[k].status == StatusSubmitted ==>
              ApplySubmit(payments, ids, nowMs)[k].status == StatusSubmitted
  {
  }

  /** The count never exceeds the number of listed ids that are stored. */
  lemma ModifiedAtMostMatched(payments: map<Id, Payment>, ids: set<Id>, nowMs: nat)
    ensures |Modified(payments, ids, nowMs)| <= |payments.Keys * ids|
  {
    assert Modified(payments, ids, nowMs) <= payments.Keys * ids;
    SubsetCardinality(Modified(payments, ids, nowMs), payments.Keys * ids);
  }

  lemma {:induction false} SubsetCardinality(a: set<Id>, b: set<Id>)
    requires a <= b
    ensures |a| <= |b|
    decreases |b|
  {
    if a != {} {
      var x :| x in a;
      SubsetCardinality(a - {x}, b - {x});
    }
  }

  /** Repeating the update at the same instant changes nothing and counts nothing. */
  lemma SubmitIdempotent(payments: map<Id, Payment>, ids: set<Id>, nowMs: nat)
    ensures ApplySubmit(ApplySubmit(payments, ids, nowMs), ids, nowMs) == ApplySubmit(payments, ids, nowMs)
    ensures Modified(ApplySubmit(payments, ids, nowMs), ids, nowMs) == {}
  {
    var once := ApplySubmit(payments, ids, nowMs);
    assert forall k :: k in once ==> ApplySubmit(once, ids, nowMs)[k] == once[k];
  }

  /** Repeating the update later leaves every status as the first call left it, but since it
      stamps a new update time it counts every listed stored payment again. */
  lemma ResubmitLater(payments: map<Id, Payment>, ids: set<Id>, firstMs: nat, laterMs: nat)
    requires firstMs != laterMs
    ensures forall k :: k in payments ==>
              ApplySubmit(ApplySubmit(payments, ids, firstMs), ids, laterMs)[k].status
                == ApplySubmit(payments, ids, firstMs)[k].status
    ensures Modified(ApplySubmit(payments, ids, firstMs), ids, laterMs) == payments.Keys * ids
  {
  }

  /** Listing one more id extends the update by that id; if the payment is stored and not yet
      touched, the count grows by one exactly when that payment changes. */
  lemma SubmitStep(payments: map<Id, Payment>, seen: set<Id>, k: Id, nowMs: nat)
    ensures k in payments ==>
              ApplySubmit(payments, seen + {k}, nowMs)
                == ApplySubmit(payments, seen, nowMs)[k := SubmitOne(payments[k], nowMs)]
    ensures k !in payments ==>
              ApplySubmit(payments, seen + {k}, nowMs) == ApplySubmit(payments, seen, nowMs)
    ensures var current := ApplySubmit(payments, seen, nowMs);
            Modified(payments, seen + {k}, nowMs)
              == if k in current && Changes(current[k], nowMs)
                 then Modified(payments, seen, nowMs) + {k}
                 else Modified(payments, seen, nowMs)
    ensures var current := ApplySubmit(payments, seen, nowMs);
            k in current && Changes(current[k], nowMs) ==> k !in Modified(payments, seen, nowMs)
  {
  }

  /** The update carried out for the ids in `seen`: the store is `current` and `count` is the
      number of payments changed so far. */
  ghost predicate Progress(payments: map<Id, Payment>, seen: set<Id>, current: map<Id, Payment>, count: nat, nowMs: nat) {
    current == ApplySubmit(payments, seen, nowMs) && count == |Modified(payments, seen, nowMs)|
  }

  /** Carrying the update out for one more id `k`: submit the payment if it is stored, and count
      it if that changes it. */
  lemma ProgressStep(payments: map<Id, Payment>, seen: set<Id>, current: map<Id, Payment>, count: nat, k: Id, nowMs: nat)
    requires Progress(payments, seen, current, count, nowMs)
    ensures k in current ==>
              Progress(payments, seen + {k}, current[k := SubmitOne(current[k], nowMs)],
                       if Changes(current[k], nowMs) then count + 1 else count, nowMs)
    ensures k !in current ==> Progress(payments, seen + {k}, current, count, nowMs)
  {
    SubmitStep(payments, seen, k, nowMs);
    if k in current {
      assert SubmitOne(current[k], nowMs) == SubmitOne(payments[k], nowMs);
    }
  }
}
