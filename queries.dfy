/** The store queries the routes run: `findOne`, `find`, sorting newest first, and `populate` of a
    payment's owner. A query scans the keyed store; the order in which it visits keys is not
    specified, so no result below depends on it beyond what the query itself promises. */
module Queries {
  import opened Base
  import opened Records

  /** `Model.findOne(filter)`: the id of some stored record the filter accepts, if there is one. */
  method FindOne<V>(store: map<Id, V>, filter: V -> bool) returns (found: Option<Id>)
    ensures found.None? <==> forall k :: k in store ==> !filter(store[k])
    ensures found.Some? ==> found.value in store && filter(store[found.value])
  {
    var unseen := store.Keys;
    while unseen != {}
      invariant unseen <= store.Keys
      invariant forall k :: k in store && k !in unseen ==> !filter(store[k])
      decreases |unseen|
    {
      var k :| k in unseen;
      if filter(store[k]) {
        return Some(k);
      }
      unseen := unseen - {k};
    }
    return None;
  }

  /** Every payment is stored under its own id. */
  ghost predicate KeyedById(payments: map<Id, Payment>) {
    forall k :: k in payments ==> payments[k].id == k
  }

  /** Ids of the stored payments a filter accepts. */
  ghost function Matching(payments: map<Id, Payment>, filter: Payment -> bool): set<Id> {
    set k | k in payments && filter(payments[k])
  }

  /** Removing `k` from the unseen keys adds it to the seen part of `m` exactly when `k` is in `m`. */
  lemma SeenStep(m: set<Id>, unseen: set<Id>, k: Id)
    requires k in unseen
    ensures k in m ==> m - (unseen - {k}) == (m - unseen) + {k} && k !in m - unseen
    ensures k !in m ==> m - (unseen - {k}) == m - unseen
  {
  }

  /** Partway through a `find` scan: `found` holds, once each, exactly the accepted payments whose
      keys are no longer `unseen`. */
  ghost predicate Scanned(payments: map<Id, Payment>, filter: Payment -> bool, unseen: set<Id>, found: seq<Payment>) {
    && unseen <= payments.Keys
    && (forall i :: 0 <= i < |found| ==>
          found[i].id in payments && payments[found[i].id] == found[i] && filter(found[i]))
    && (forall k :: k in payments && k !in unseen && filter(payments[k]) ==> payments[k] in found)
    && |found| == |Matching(payments, filter) - unseen|
  }

  /** Visiting one more key keeps the scan's account. */
  lemma ScanStep(payments: map<Id, Payment>, filter: Payment -> bool, unseen: set<Id>, found: seq<Payment>, k: Id)
    requires KeyedById(payments) && Scanned(payments, filter, unseen, found) && k in unseen
    ensures Scanned(payments, filter, unseen - {k}, if filter(payments[k]) then found + [payments[k]] else found)
  {
    var m := Matching(payments, filter);
    assert k in m <==> filter(payments[k]);
    SeenStep(m, unseen, k);
    if filter(payments[k]) {
      var after := found + [payments[k]];
      assert forall i :: 0 <= i < |found| ==> after[i] == found[i];
      assert after[|found|] == payments[k];
    }
  }

  /** `Payment.find(filter)`: each stored payment the filter accepts, exactly once, in the order the
      scan meets them. */
  method Find(payments: map<Id, Payment>, filter: Payment -> bool) returns (found: seq<Payment>)
    requires KeyedById(payments)
    ensures forall i :: 0 <= i < |found| ==>
              found[i].id in payments && payments[found[i].id] == found[i] && filter(found[i])
    ensures forall k :: k in payments && filter(payments[k]) ==> payments[k] in found
    ensures |found| == |Matching(payments, filter)|
  {
    found := [];
    var unseen := payments.Keys;
    while unseen != {}
      invariant Scanned(payments, filter, unseen, found)
      decreases |unseen|
    {
      var k :| k in unseen;
      ScanStep(payments, filter, unseen, found, k);
      if filter(payments[k]) {
        found := found + [payments[k]];
      }
      unseen := unseen - {k};
    }
    assert Matching(payments, filter) - unseen == Matching(payments, filter);
  }

  /** Ordered by creation time, newest first (ties in any order). */
  predicate NewestFirst(s: seq<Payment>) {
    forall i, j :: 0 <= i < j < |s| ==> s[i].createdAt >= s[j].createdAt
  }

  /** Put `p` into a newest-first sequence, keeping it newest first. */
  function InsertNewestFirst(p: Payment, s: seq<Payment>): (r: seq<Payment>)
    requires NewestFirst(s)
    ensures |r| == |s| + 1 && (r[0] == p || (s != [] && r[0] == s[0]))
    ensures NewestFirst(r)
    ensures multiset(r) == multiset(s) + multiset{p}
  {
    if s == [] || p.createdAt >= s[0].createdAt then [p] + s
    else
      var tail := InsertNewestFirst(p, s[1..]);
      assert s == [s[0]] + s[1..];
      [s[0]] + tail
  }

  /** `.sort({ createdAt: -1 })`: the same payments, newest first. */
  function SortNewestFirst(s: seq<Payment>): (r: seq<Payment>)
    ensures NewestFirst(r)
    ensures multiset(r) == multiset(s)
  {
    if s == [] then []
    else
      assert s == [s[0]] + s[1..];
      InsertNewestFirst(s[0], SortNewestFirst(s[1..]))
  }

  /** `.populate("customerId", "fullName idNumber")` over a list of payments. */
  function JoinOwners(ps: seq<Payment>, customers: map<Id, Customer>): (r: seq<PendingEntry>)
    ensures |r| == |ps|
    ensures forall i :: 0 <= i < |ps| ==> r[i].payment == ps[i] && r[i].owner == OwnerOf(customers, ps[i].customerId)
  {
    seq(|ps|, i requires 0 <= i < |ps| => PendingEntry(ps[i], OwnerOf(customers, ps[i].customerId)))
  }

  /** Populating the owners of what `find` returned lists each accepted stored payment once, with
      its owner, and nothing else. */
  lemma PopulateFound(payments: map<Id, Payment>, customers: map<Id, Customer>, filter: Payment -> bool, found: seq<Payment>)
    requires forall i :: 0 <= i < |found| ==>
               found[i].id in payments && payments[found[i].id] == found[i] && filter(found[i])
    requires forall k :: k in payments && filter(payments[k]) ==> payments[k] in found
    ensures forall e :: e in JoinOwners(found, customers) ==>
              && e.payment.id in payments && payments[e.payment.id] == e.payment && filter(e.payment)
              && e.owner == OwnerOf(customers, e.payment.customerId)
    ensures forall k :: k in payments && filter(payments[k]) ==>
              PendingEntry(payments[k], OwnerOf(customers, payments[k].customerId)) in JoinOwners(found, customers)
  {
    var entries := JoinOwners(found, customers);
    forall k | k in payments && filter(payments[k])
      ensures PendingEntry(payments[k], OwnerOf(customers, payments[k].customerId)) in entries
    {
      var i :| 0 <= i < |found| && found[i] == payments[k];
      assert entries[i] == PendingEntry(payments[k], OwnerOf(customers, payments[k].customerId));
    }
  }
}
