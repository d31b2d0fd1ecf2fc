/**
  Memory, the store, and the writes between them: what issuing, storing, expiring and loading keep; and
  when two dedupe keys coincide.
 */
module QueueLaws {
  import opened Common
  import opened Types
  import opened Canonical
  import Signatures
  import opened Sign
  import opened NonceCheck
  import opened QueueModel
  import Format

  predicate Final(e: QueuedPayment) {
    e.state == Settled || e.state == Voided
  }

  /** One purchase, at two stages of its life. */
  predicate SamePurchase(a: QueuedPayment, b: QueuedPayment) {
    a.id == b.id && a.payment == b.payment && a.tier == b.tier && a.acceptedAt == b.acceptedAt && a.amount == b.amount
  }

  /** An entry the store holds, or was given and has not stored. */
  predicate Version(q: QueueState, e: QueuedPayment) {
    e in q.stored || e in q.pending
  }

  /** When every write is stored, each key finds in the store what it finds in memory. */
  ghost predicate Aligned(q: QueueState) {
    && Distinct(q.payments) && Distinct(q.stored)
    && forall id :: Lookup(q.payments, id) == Lookup(PutAll(q.stored, q.pending), id)
  }

  /** Memory has the purchase, and has it as it is here if this is final. */
  predicate IsKnown(q: QueueState, e: QueuedPayment) {
    var held := Lookup(q.payments, e.id);
    held.Some? && SamePurchase(held.value, e) && (Final(e) ==> held.value == e)
  }

  ghost predicate Known(q: QueueState) {
    forall e :: Version(q, e) ==> IsKnown(q, e)
  }

  /** Nothing is written over a final entry. */
  ghost predicate FinalIsLast(q: QueueState) {
    && (forall e, k :: e in q.stored && Final(e) && 0 <= k < |q.pending| ==> q.pending[k].id != e.id)
    && (forall j, k :: 0 <= j < k < |q.pending| && Final(q.pending[j]) ==> q.pending[k].id != q.pending[j].id)
  }

  ghost predicate Tidy(q: QueueState) {
    Aligned(q) && Known(q) && FinalIsLast(q)
  }

  /** An entry that may be saved: it is new, or goes on from one that is not final. */
  predicate Supersedes(q: QueueState, e: QueuedPayment) {
    var held := Lookup(q.payments, e.id);
    held.Some? ==> !Final(held.value) && SamePurchase(held.value, e)
  }

  /** The store stores the writes for one key in the order it was given them. */
  predicate OldestOfItsKey(q: QueueState, k: nat) {
    k < |q.pending| && forall j :: 0 <= j < k ==> q.pending[j].id != q.pending[k].id
  }

  /** Every write for a key is stored. */
  predicate IsStored(q: QueueState, id: PaymentId) {
    forall k :: 0 <= k < |q.pending| ==> q.pending[k].id != id
  }

  // --- many writes ---------------------------------------------------------------------------------

  lemma PutAllSnoc(payments: seq<QueuedPayment>, entries: seq<QueuedPayment>, e: QueuedPayment)
    ensures PutAll(payments, entries + [e]) == Put(PutAll(payments, entries), e)
  {
    assert (entries + [e])[..|entries|] == entries;
  }

  lemma {:induction false} PutAllCons(payments: seq<QueuedPayment>, entries: seq<QueuedPayment>)
    requires entries != []
    ensures PutAll(Put(payments, entries[0]), entries[1..]) == PutAll(payments, entries)
    decreases |entries|
  {
    hide Put;
    if |entries| == 1 {
      assert entries[..0] == [] && entries[1..] == [];
      assert PutAll(payments, entries[..0]) == payments;
    } else {
      var head := entries[..|entries| - 1];
      PutAllCons(payments, head);
      assert head[1..] == entries[1..][..|entries| - 2];
    }
  }

  lemma {:induction false} PutAllDistinct(payments: seq<QueuedPayment>, entries: seq<QueuedPayment>)
    requires Distinct(payments)
    ensures Distinct(PutAll(payments, entries))
    decreases |entries|
  {
    hide Put, Distinct;
    if entries != [] {
      PutAllDistinct(payments, entries[..|entries| - 1]);
      PutEntries(PutAll(payments, entries[..|entries| - 1]), entries[|entries| - 1]);
    }
  }

  /** What is found was there before or is one of the writes. */
  lemma {:induction false} FoundWasPut(payments: seq<QueuedPayment>, entries: seq<QueuedPayment>, id: PaymentId)
    requires Lookup(PutAll(payments, entries), id).Some?
    ensures var e := Lookup(PutAll(payments, entries), id).value; e in payments || e in entries
    decreases |entries|
  {
    hide Put, Lookup;
    if entries != [] {
      var head, last := entries[..|entries| - 1], entries[|entries| - 1];
      LookupPut(PutAll(payments, head), last, id);
      if id != last.id {
        FoundWasPut(payments, head, id);
      }
    }
  }

  lemma {:induction false} PutAllElsewhere(payments: seq<QueuedPayment>, entries: seq<QueuedPayment>, id: PaymentId)
    requires forall k :: 0 <= k < |entries| ==> entries[k].id != id
    ensures Lookup(PutAll(payments, entries), id) == Lookup(payments, id)
    decreases |entries|
  {
    hide Put, Lookup;
    if entries != [] {
      PutAllElsewhere(payments, entries[..|entries| - 1], id);
      LookupPut(PutAll(payments, entries[..|entries| - 1]), entries[|entries| - 1], id);
    }
  }

  /** A write may be stored before writes for other keys. */
  lemma {:induction false} PutCommutes(payments: seq<QueuedPayment>, entries: seq<QueuedPayment>, e: QueuedPayment,
                                       id: PaymentId)
    requires forall k :: 0 <= k < |entries| ==> entries[k].id != e.id
    ensures Lookup(PutAll(Put(payments, e), entries), id) == Lookup(Put(PutAll(payments, entries), e), id)
    decreases |entries|
  {
    hide Put, Lookup;
    if entries != [] {
      var head, last := entries[..|entries| - 1], entries[|entries| - 1];
      PutCommutes(payments, head, e, id);
      LookupPut(PutAll(payments, entries), e, id);
      LookupPut(PutAll(payments, head), e, id);
      LookupPut(PutAll(payments, head), last, id);
      LookupPut(PutAll(Put(payments, e), head), last, id);
    }
  }

  /** Storing the oldest write for its key leaves what all the writes come to as it was. */
  lemma {:induction false} StoreFinds(payments: seq<QueuedPayment>, entries: seq<QueuedPayment>, k: nat, id: PaymentId)
    requires k < |entries| && forall j :: 0 <= j < k ==> entries[j].id != entries[k].id
    ensures Lookup(PutAll(Put(payments, entries[k]), entries[..k] + entries[k + 1..]), id)
            == Lookup(PutAll(payments, entries), id)
    decreases |entries|
  {
    hide Put, Lookup, PutAll;
    var head, last := entries[..|entries| - 1], entries[|entries| - 1];
    assert entries == head + [last];
    PutAllSnoc(payments, head, last);
    if k == |head| {
      assert entries[..k] + entries[k + 1..] == head;
      PutCommutes(payments, head, last, id);
    } else {
      var less := head[..k] + head[k + 1..];
      assert entries[..k] + entries[k + 1..] == less + [last];
      PutAllSnoc(Put(payments, entries[k]), less, last);
      StoreFinds(payments, head, k, id);
      LookupPut(PutAll(payments, head), last, id);
      LookupPut(PutAll(Put(payments, entries[k]), less), last, id);
    }
  }

  /** What the keys find is all there is. */
  lemma SameLookups(a: seq<QueuedPayment>, b: seq<QueuedPayment>)
    requires Distinct(a) && Distinct(b) && forall id :: Lookup(a, id) == Lookup(b, id)
    ensures multiset(a) == multiset(b) && forall e :: e in a <==> e in b
  {
    hide Distinct, Lookup;
    forall e
      ensures e in a <==> e in b
    {
      if e in a {
        LookupFinds(a, e);
      }
      if e in b {
        LookupFinds(b, e);
      }
    }
    SameEntries(a, b);
  }

  // --- one save ------------------------------------------------------------------------------------

  lemma HeldIsVersion(q: QueueState, id: PaymentId)
    requires Aligned(q) && Lookup(q.payments, id).Some?
    ensures Version(q, Lookup(q.payments, id).value)
  {
    hide PutAll;
    FoundWasPut(q.stored, q.pending, id);
  }

  lemma StoredIsKnown(q: QueueState, id: PaymentId)
    requires Known(q)
    ensures Lookup(q.stored, id).Some? ==> Lookup(q.payments, id).Some?
  {
    var found := Lookup(q.stored, id);
    assert found.Some? ==> Version(q, found.value);
    hide Lookup;
  }

  /** With every write for it stored, a key finds the same on both sides. */
  lemma StoredIsHeld(q: QueueState, id: PaymentId)
    requires Aligned(q) && IsStored(q, id)
    ensures Lookup(q.stored, id) == Lookup(q.payments, id)
  {
    PutAllElsewhere(q.stored, q.pending, id);
  }

  lemma IssueAligned(q: QueueState, e: QueuedPayment)
    requires Aligned(q)
    ensures Aligned(Issue(q, e))
  {
    hide Put, Lookup, PutAll;
    PutEntries(q.payments, e);
    PutAllSnoc(q.stored, q.pending, e);
    forall id
      ensures Lookup(Put(q.payments, e), id) == Lookup(Put(PutAll(q.stored, q.pending), e), id)
    {
      LookupPut(q.payments, e, id);
      LookupPut(PutAll(q.stored, q.pending), e, id);
    }
  }

  lemma IssueKnown(q: QueueState, e: QueuedPayment)
    requires Known(q) && Supersedes(q, e)
    ensures Known(Issue(q, e))
  {
    hide Put, Lookup;
    var v := Issue(q, e);
    forall x | Version(v, x)
      ensures IsKnown(v, x)
    {
      LookupPut(q.payments, e, x.id);
      assert x == e || Version(q, x);
    }
  }

  lemma FinalIsElsewhere(q: QueueState, e: QueuedPayment, x: QueuedPayment)
    requires Known(q) && Supersedes(q, e) && Version(q, x) && Final(x)
    ensures x.id != e.id
  {
    assert IsKnown(q, x);
  }

  lemma IssueFinal(q: QueueState, e: QueuedPayment)
    requires Known(q) && FinalIsLast(q) && Supersedes(q, e)
    ensures FinalIsLast(Issue(q, e))
  {
    hide Known, Supersedes, Put, Final;
    var pending := Issue(q, e).pending;
    forall x, k | x in q.stored && Final(x) && 0 <= k < |pending|
      ensures pending[k].id != x.id
    {
      FinalIsElsewhere(q, e, x);
    }
    forall j, k | 0 <= j < k < |pending| && Final(pending[j])
      ensures pending[k].id != pending[j].id
    {
      FinalIsElsewhere(q, e, pending[j]);
    }
  }

  /** A save keeps memory and store in step, though the store is as it was until it stores the write. */
  lemma IssueTidy(q: QueueState, e: QueuedPayment)
    requires Tidy(q) && Supersedes(q, e)
    ensures Tidy(Issue(q, e))
    ensures forall x :: Version(Issue(q, e), x) <==> x == e || Version(q, x)
  {
    IssueAligned(q, e);
    IssueKnown(q, e);
    IssueFinal(q, e);
    hide Aligned, Known, FinalIsLast, Supersedes, Put;
  }

  lemma StoreVersions(q: QueueState, k: nat, x: QueuedPayment)
    requires Distinct(q.stored) && k < |q.pending| && Version(StoreAt(q, k), x)
    ensures Version(q, x)
  {
    PutEntries(q.stored, q.pending[k]);
    hide Put, Distinct;
  }

  lemma StoreAligned(q: QueueState, k: nat)
    requires Aligned(q) && OldestOfItsKey(q, k)
    ensures Aligned(StoreAt(q, k))
  {
    hide Put, Lookup, PutAll;
    PutEntries(q.stored, q.pending[k]);
    forall id
      ensures Lookup(q.payments, id) == Lookup(PutAll(StoreAt(q, k).stored, StoreAt(q, k).pending), id)
    {
      StoreFinds(q.stored, q.pending, k, id);
    }
  }

  lemma StoreFinal(q: QueueState, k: nat)
    requires Distinct(q.stored) && FinalIsLast(q) && OldestOfItsKey(q, k)
    ensures FinalIsLast(StoreAt(q, k))
  {
    PutEntries(q.stored, q.pending[k]);
    hide Put, Distinct;
  }

  lemma StoreTidy(q: QueueState, k: nat)
    requires Tidy(q) && OldestOfItsKey(q, k)
    ensures Tidy(StoreAt(q, k)) && forall x :: Version(StoreAt(q, k), x) ==> Version(q, x)
  {
    StoreAligned(q, k);
    StoreFinal(q, k);
    hide FinalIsLast, Put, PutAll, OldestOfItsKey, Lookup, IsKnown, Version;
    forall x | Version(StoreAt(q, k), x)
      ensures Version(q, x)
    {
      StoreVersions(q, k, x);
    }
    forall x | Version(StoreAt(q, k), x)
      ensures IsKnown(StoreAt(q, k), x)
    {
      KnownElsewhere(q, StoreAt(q, k), x);
    }
  }

  lemma KnownElsewhere(q: QueueState, v: QueueState, x: QueuedPayment)
    requires Known(q) && Version(q, x) && v.payments == q.payments
    ensures IsKnown(v, x)
  {
    assert IsKnown(q, x);
  }

  // --- totals --------------------------------------------------------------------------------------

  function WeightOf(found: Option<QueuedPayment>, weight: QueuedPayment -> int): int {
    match found case Some(e) => weight(e) case None => 0
  }

  /** Saving moves a total by the difference of the two entries; a new one adds its own weight. */
  lemma IssueTotal(q: QueueState, e: QueuedPayment, weight: QueuedPayment -> int)
    ensures Total(Issue(q, e).payments, weight) ==
            Total(q.payments, weight) + weight(e) - WeightOf(Lookup(q.payments, e.id), weight)
  {
    PutTotal(q.payments, e, weight);
  }

  /** What the store will come to totals what memory does. */
  lemma AlignedTotal(q: QueueState, weight: QueuedPayment -> int)
    requires Aligned(q)
    ensures Total(PutAll(q.stored, q.pending), weight) == Total(q.payments, weight)
  {
    hide Lookup, PutAll;
    PutAllDistinct(q.stored, q.pending);
    SameLookups(q.payments, PutAll(q.stored, q.pending));
    TotalOfPermutation(PutAll(q.stored, q.pending), q.payments, weight);
  }

  // --- expiry --------------------------------------------------------------------------------------

  predicate Among(ids: seq<QueuedPayment>, id: PaymentId) {
    exists k :: 0 <= k < |ids| && ids[k].id == id
  }

  lemma AmongSplits(entries: seq<QueuedPayment>, id: PaymentId)
    requires entries != []
    ensures Among(entries, id) <==> entries[0].id == id || Among(entries[1..], id)
  {
  }

  lemma DistinctHead(entries: seq<QueuedPayment>)
    requires entries != [] && Distinct(entries)
    ensures Distinct(entries[1..]) && !Among(entries[1..], entries[0].id)
    ensures forall x :: x in entries[1..] ==> x in entries && x.id != entries[0].id
  {
  }

  /** An entry that `expire` may save: it voids what memory holds, which is not final. */
  predicate Voids(q: QueueState, x: QueuedPayment) {
    var held := Lookup(q.payments, x.id);
    held.Some? && !Final(held.value) && x == VoidedEntry(held.value)
  }

  lemma VoidsSupersede(q: QueueState, x: QueuedPayment)
    requires Voids(q, x)
    ensures Supersedes(q, x)
  {
  }

  lemma VoidsAfter(q: QueueState, e: QueuedPayment, x: QueuedPayment)
    requires Voids(q, x) && x.id != e.id
    ensures Voids(Issue(q, e), x)
  {
    LookupPut(q.payments, e, x.id);
  }

  /** One voiding issued leaves the others to be issued. */
  lemma RestVoids(q: QueueState, entries: seq<QueuedPayment>)
    requires entries != [] && Distinct(entries) && forall x :: x in entries ==> Voids(q, x)
    ensures Distinct(entries[1..]) && forall x :: x in entries[1..] ==> Voids(Issue(q, entries[0]), x)
  {
    hide Voids, Put, Distinct;
    DistinctHead(entries);
    forall x | x in entries[1..]
      ensures Voids(Issue(q, entries[0]), x)
    {
      VoidsAfter(q, entries[0], x);
    }
  }

  lemma {:induction false} IssueAllEntries(q: QueueState, entries: seq<QueuedPayment>)
    requires Tidy(q) && Distinct(entries) && forall x :: x in entries ==> Voids(q, x)
    ensures var after := IssueAll(q, entries);
            && Tidy(after) && after == q.(payments := after.payments, pending := q.pending + entries)
            && forall x :: x in after.payments <==> x in entries || (x in q.payments && !Among(entries, x.id))
    decreases |entries|
  {
    hide Tidy, Put, Voids, Distinct, Among;
    if entries == [] {
      assert q.pending + [] == q.pending;
      assert forall id :: !Among(entries, id) by {
        NobodyAmong();
      }
    } else {
      var e, rest, next := entries[0], entries[1..], Issue(q, entries[0]);
      assert e in entries;
      VoidsSupersede(q, e);
      IssueTidy(q, e);
      TidyPut(q, e);
      RestVoids(q, entries);
      DistinctHead(entries);
      IssueAllEntries(next, rest);
      assert q.pending + [e] + rest == q.pending + entries;
      forall x
        ensures x in IssueAll(next, rest).payments <==> x in entries || (x in q.payments && !Among(entries, x.id))
      {
        AmongSplits(entries, x.id);
        assert x in entries <==> x == e || x in rest;
      }
    }
  }

  lemma NobodyAmong()
    ensures forall id :: !Among([], id)
  {
  }

  lemma TidyPut(q: QueueState, e: QueuedPayment)
    requires Tidy(q)
    ensures forall x :: x in Put(q.payments, e) <==> x == e || (x in q.payments && x.id != e.id)
  {
    PutEntries(q.payments, e);
  }

  /** What an entry is after `expire`. */
  function AfterExpiry(limits: Limits, e: QueuedPayment, now: int): QueuedPayment {
    if Overdue(limits, e, now) then VoidedEntry(e) else e
  }

  lemma {:induction false} VoidingsAre(limits: Limits, payments: seq<QueuedPayment>, now: int)
    requires Distinct(payments)
    ensures Distinct(Voidings(limits, payments, now))
    ensures forall e :: e in payments && Overdue(limits, e, now) ==> VoidedEntry(e) in Voidings(limits, payments, now)
    ensures forall x :: x in Voidings(limits, payments, now) ==>
                          exists e :: e in payments && Overdue(limits, e, now) && x == VoidedEntry(e)
  {
    if payments != [] {
      var rest := Voidings(limits, payments[1..], now);
      VoidingsAre(limits, payments[1..], now);
      forall x | x in Voidings(limits, payments, now)
        ensures exists e :: e in payments && Overdue(limits, e, now) && x == VoidedEntry(e)
      {
        if x in rest {
          var e :| e in payments[1..] && Overdue(limits, e, now) && x == VoidedEntry(e);
          assert e in payments;
        } else {
          assert x == VoidedEntry(payments[0]) && payments[0] in payments;
        }
      }
      forall x | x in rest
        ensures x.id != payments[0].id
      {
        var e :| e in payments[1..] && Overdue(limits, e, now) && x == VoidedEntry(e);
      }
    }
  }

  lemma OverdueIsOpen(limits: Limits, q: QueueState, now: int, x: QueuedPayment)
    requires Distinct(q.payments) && exists e :: e in q.payments && Overdue(limits, e, now) && x == VoidedEntry(e)
    ensures Voids(q, x)
  {
    var e :| e in q.payments && Overdue(limits, e, now) && x == VoidedEntry(e);
    LookupFinds(q.payments, e);
  }

  /** What `expire` saves: one voiding for each overdue payment, and nothing else. */
  lemma ExpireSaves(limits: Limits, q: QueueState, now: int)
    requires Distinct(q.payments)
    ensures var expired := Expire(limits, q, now).1;
            && Distinct(expired) && (forall x :: x in expired ==> Voids(q, x))
            && (forall e :: e in q.payments && Overdue(limits, e, now) ==> VoidedEntry(e) in expired)
            && (forall x :: x in expired ==>
                              exists e :: e in q.payments && Overdue(limits, e, now) && x == VoidedEntry(e))
  {
    var ordered := Ordered(limits, q.payments);
    var expired := Voidings(limits, ordered, now);
    OrderedSorts(limits, q.payments);
    PermutationEntries(q.payments, ordered);
    VoidingsAre(limits, ordered, now);
    hide Voidings, Ordered, Overdue, Voids, Distinct;
    forall x | x in expired
      ensures Voids(q, x) && exists e :: e in q.payments && Overdue(limits, e, now) && x == VoidedEntry(e)
    {
      var e :| e in ordered && Overdue(limits, e, now) && x == VoidedEntry(e);
      assert e in q.payments;
      OverdueIsOpen(limits, q, now, x);
    }
  }

  /**
    `expire` voids exactly the payments that are neither settled nor voided and have outlived the send
    window, returns exactly those, and leaves every other entry and the counter as they were.  It returns
    with the store as it was, one write to come for each payment voided.
   */
  lemma ExpireVoidsExactlyTheOverdue(limits: Limits, q: QueueState, now: int)
    requires Tidy(q)
    ensures var r := Expire(limits, q, now);
            && Tidy(r.0) && r.0 == q.(payments := r.0.payments, pending := q.pending + r.1)
            && (forall e :: e in q.payments ==> AfterExpiry(limits, e, now) in r.0.payments)
            && (forall x :: x in r.0.payments ==> exists e :: e in q.payments && x == AfterExpiry(limits, e, now))
            && (forall e :: e in q.payments && Overdue(limits, e, now) ==> VoidedEntry(e) in r.1)
            && (forall x :: x in r.1 ==> exists e :: e in q.payments && Overdue(limits, e, now) && x == VoidedEntry(e))
  {
    ExpireSaves(limits, q, now);
    var expired := Expire(limits, q, now).1;
    IssueAllEntries(q, expired);
    assert Distinct(q.payments);
    hide Voidings, IssueAll, Ordered, Overdue, Tidy, Distinct, Voids;
    var after := IssueAll(q, expired);
    forall e | e in q.payments
      ensures AfterExpiry(limits, e, now) in after.payments
    {
      if !Overdue(limits, e, now) && Among(expired, e.id) {
        OnlyOneEntry(limits, q, expired, e, now);
        assert false;
      }
    }
    forall x | x in after.payments
      ensures exists e :: e in q.payments && x == AfterExpiry(limits, e, now)
    {
      if x in expired {
        var e :| e in q.payments && Overdue(limits, e, now) && x == VoidedEntry(e);
        assert x == AfterExpiry(limits, e, now);
      } else {
        if Overdue(limits, x, now) {
          OverdueIsAmong(expired, x);
          assert false;
        }
        assert x == AfterExpiry(limits, x, now);
      }
    }
  }

  lemma OverdueIsAmong(expired: seq<QueuedPayment>, e: QueuedPayment)
    requires VoidedEntry(e) in expired
    ensures Among(expired, e.id)
  {
    var k :| 0 <= k < |expired| && expired[k] == VoidedEntry(e);
  }

  lemma OnlyOneEntry(limits: Limits, q: QueueState, expired: seq<QueuedPayment>, e: QueuedPayment, now: int)
    requires Distinct(q.payments) && e in q.payments && Among(expired, e.id)
    requires forall x :: x in expired ==> exists o :: o in q.payments && Overdue(limits, o, now) && x == VoidedEntry(o)
    ensures Overdue(limits, e, now)
  {
    var k :| 0 <= k < |expired| && expired[k].id == e.id;
    assert expired[k] in expired;
    var o :| o in q.payments && Overdue(limits, o, now) && expired[k] == VoidedEntry(o);
    assert o.id == e.id;
  }

  /** A payment that is still open and was accepted a send window ago, or earlier. */
  predicate OldAndOpen(limits: Limits, e: QueuedPayment, now: int) {
    e.state in {Queued, Submitting, Failed} && e.acceptedAt <= now - limits.sendWindowMs
  }

  /** An entry voided for its age. */
  function TooOld(e: QueuedPayment): QueuedPayment {
    QueuedPayment(e.id, e.payment, e.tier, e.acceptedAt, e.amount, e.attempts, Some(LIMIT_SEND_WINDOW_EXPIRED), Voided)
  }

  lemma OverdueMeans(limits: Limits, e: QueuedPayment, now: int)
    ensures Overdue(limits, e, now) <==> OldAndOpen(limits, e, now)
    ensures VoidedEntry(e) == TooOld(e)
    ensures AfterExpiry(limits, e, now) == if OldAndOpen(limits, e, now) then TooOld(e) else e
  {
  }

  lemma ExpiryOfOne(limits: Limits, q: QueueState, now: int, e: QueuedPayment)
    requires Tidy(q) && e in q.payments
    ensures var (after, expired) := Expire(limits, q, now);
            if OldAndOpen(limits, e, now) then TooOld(e) in after.payments && TooOld(e) in expired
            else e in after.payments && forall x :: x in expired ==> x.id != e.id
  {
    ExpireVoidsExactlyTheOverdue(limits, q, now);
    OverdueMeans(limits, e, now);
    assert Distinct(q.payments);
    hide Expire, Overdue, VoidedEntry, OldAndOpen, TooOld, Tidy, AfterExpiry, Distinct;
    var expired := Expire(limits, q, now).1;
    forall x | x in expired && x.id == e.id
      ensures Overdue(limits, e, now)
    {
      AnsweredIsOverdue(limits, q, now, x, e);
    }
  }

  /**
    The same of each payment's own fields: one still open that was accepted a send window ago is voided, with
    the reason, and answered, once; any other is as it was, and is not answered.
   */
  lemma ExpiryVoidsTheOldAndOpen(limits: Limits, q: QueueState, now: int)
    requires Tidy(q)
    ensures var (after, expired) := Expire(limits, q, now);
            && Distinct(expired) && after == q.(payments := after.payments, pending := q.pending + expired)
            && forall e :: e in q.payments ==>
                             if OldAndOpen(limits, e, now) then TooOld(e) in after.payments && TooOld(e) in expired
                             else e in after.payments && forall x :: x in expired ==> x.id != e.id
  {
    assert Distinct(q.payments);
    ExpireSaves(limits, q, now);
    ExpireVoidsExactlyTheOverdue(limits, q, now);
    hide Expire, OldAndOpen, TooOld, Tidy, Distinct, Voids, AfterExpiry, Overdue;
    forall e | e in q.payments
      ensures var (after, expired) := Expire(limits, q, now);
              if OldAndOpen(limits, e, now) then TooOld(e) in after.payments && TooOld(e) in expired
              else e in after.payments && forall x :: x in expired ==> x.id != e.id
    {
      ExpiryOfOne(limits, q, now, e);
    }
  }

  lemma AnsweredIsOverdue(limits: Limits, q: QueueState, now: int, x: QueuedPayment, e: QueuedPayment)
    requires Distinct(q.payments) && e in q.payments && x.id == e.id
    requires exists o :: o in q.payments && Overdue(limits, o, now) && x == VoidedEntry(o)
    ensures Overdue(limits, e, now)
  {
    var o :| o in q.payments && Overdue(limits, o, now) && x == VoidedEntry(o);
    assert o.id == e.id;
  }

  // --- loading -------------------------------------------------------------------------------------

  predicate Listed(stored: seq<QueuedPayment>, keys: seq<PaymentId>, id: PaymentId) {
    id in keys && Lookup(stored, id).Some?
  }

  lemma {:induction false} HydratedFinds(payments: seq<QueuedPayment>, stored: seq<QueuedPayment>,
                                         keys: seq<PaymentId>, id: PaymentId)
    ensures Lookup(Hydrated(payments, stored, keys), id) ==
            Lookup(if Listed(stored, keys, id) then stored else payments, id)
    decreases |keys|
  {
    hide Put, Lookup;
    if keys != [] {
      var found := Lookup(stored, keys[0]);
      assert id in keys <==> id == keys[0] || id in keys[1..];
      if found.Some? {
        HydratedFinds(Put(payments, found.value), stored, keys[1..], id);
        LookupPut(payments, found.value, id);
      } else {
        HydratedFinds(payments, stored, keys[1..], id);
      }
    }
  }

  lemma {:induction false} HydratedDistinct(payments: seq<QueuedPayment>, stored: seq<QueuedPayment>,
                                            keys: seq<PaymentId>)
    requires Distinct(payments)
    ensures Distinct(Hydrated(payments, stored, keys))
    decreases |keys|
  {
    hide Put, Lookup, Distinct;
    if keys != [] {
      var found := Lookup(stored, keys[0]);
      if found.Some? {
        PutEntries(payments, found.value);
        HydratedDistinct(Put(payments, found.value), stored, keys[1..]);
      } else {
        HydratedDistinct(payments, stored, keys[1..]);
      }
    }
  }

  /** The keys the store lists, in whatever order. */
  ghost predicate Lists(stored: seq<QueuedPayment>, keys: seq<PaymentId>) {
    forall id :: id in keys <==> Lookup(stored, id).Some?
  }

  /** A new queue over a store. */
  function NewQueue(stored: seq<QueuedPayment>, storedMeta: Option<nat>): QueueState {
    QueueState([], 0, stored, storedMeta, [])
  }

  /** A new queue that loads has every entry its store holds and no other, whatever order the store lists them in. */
  lemma LoadRestores(stored: seq<QueuedPayment>, storedMeta: Option<nat>, keys: seq<PaymentId>)
    requires Distinct(stored) && Lists(stored, keys)
    ensures var loaded := Load(NewQueue(stored, storedMeta), keys);
            && Tidy(loaded) && loaded == NewQueue(stored, storedMeta).(payments := loaded.payments,
                                                                    consecutiveFailedSends := MetaCounter(storedMeta))
            && multiset(loaded.payments) == multiset(stored)
            && (forall e :: e in loaded.payments <==> e in stored)
  {
    var payments := Hydrated([], stored, keys);
    HydratedDistinct([], stored, keys);
    forall id
      ensures Lookup(payments, id) == Lookup(stored, id)
    {
      HydratedFinds([], stored, keys, id);
    }
    hide Hydrated, Lookup;
    SameLookups(payments, stored);
    var loaded := Load(NewQueue(stored, storedMeta), keys);
    assert PutAll(stored, []) == stored;
    hide PutAll;
    forall e | Version(loaded, e)
      ensures IsKnown(loaded, e)
    {
      LookupFinds(stored, e);
    }
  }

  // --- dedupe keys ---------------------------------------------------------------------------------

  /**
    When two payments are one to the queue: of one payer, and on the nonce path for the same slot on the same
    value, on the fresh path the same message, whatever the signatures.
   */
  lemma SamePaymentExactly(a: VerifiedPayment, b: VerifiedPayment)
    ensures IdOf(a) == IdOf(b) <==>
            && a.input.payer == b.input.payer && a.input.nonceRef == b.input.nonceRef
            && (a.input.nonceRef == None ==> a.message == b.message)
  {
  }

  /**
    So two payments verified against what was rebuilt on the fresh path are one exactly when they ask for the
    same thing: merchant, mint, amount, blockhash and all the rest.
   */
  lemma SamePurchaseExactly(signed: set<Signatures.Signed>, intents: (Intent, Intent), auths: (Auth, Auth),
                            expected: (Option<int>, Option<int>))
    requires VerifyAuth(signed, intents.0, auths.0, expected.0).Ok?
    requires VerifyAuth(signed, intents.1, auths.1, expected.1).Ok?
    requires intents.0.lifetime.Fresh? && intents.1.lifetime.Fresh?
    ensures var a, b := VerifyAuth(signed, intents.0, auths.0, expected.0).value,
            VerifyAuth(signed, intents.1, auths.1, expected.1).value;
            IdOf(a) == IdOf(b) <==> EssenceOf(a.input) == EssenceOf(b.input)
  {
    hide BuildMessage, EssenceOf, ResolveAmount;
    var a, b := VerifyAuth(signed, intents.0, auths.0, expected.0).value,
      VerifyAuth(signed, intents.1, auths.1, expected.1).value;
    MessageDeterminesInput(a.input, b.input);
    FreshHasNoNonce(a.input);
    FreshHasNoNonce(b.input);
    PayerIsEssential(a.input, b.input);
  }

  lemma FreshHasNoNonce(input: CanonicalInput)
    requires BuildMessage(input).Ok? && input.intent.lifetime.Fresh?
    ensures input.nonceRef.None?
  {
  }

  lemma PayerIsEssential(a: CanonicalInput, b: CanonicalInput)
    ensures EssenceOf(a) == EssenceOf(b) ==> a.payer == b.payer
  {
  }

  // --- acceptance ----------------------------------------------------------------------------------

  /** What is exposed: the open payments that were handed over before they settle. */
  lemma ExposedExactly(e: QueuedPayment)
    ensures Exposed(e) == if e.tier in {T1, T2} && e.state in {Queued, Submitting, Failed} then e.amount else 0
  {
  }

  /** The first rule that a payment breaks is the one it is refused for, in the order of the rules. */
  lemma WhyRefused(limits: Limits, q: QueueState, payment: VerifiedPayment, tier: Tier, amount: int,
                   precheck: Option<NonceVerdict>)
    ensures var r := Refusal(limits, q, payment, tier, amount, precheck);
            var known := exists e :: e in q.payments && e.id == IdOf(payment);
            var unchecked := tier == T1 && payment.input.nonceRef != None
                             && (precheck == None || !precheck.value.Passes?);
            var failing := limits.maxConsecutiveFailedSends <= q.consecutiveFailedSends;
            var large, exposing := amount > limits.receiptCap(tier),
                tier != T0 && Total(q.payments, Exposed) + amount > limits.queueExposureCap;
            r == if known then Some(WIRE_DUPLICATE_AUTH)
                 else if unchecked then Some(LIMIT_PRECHECK_REQUIRED)
                 else if failing then Some(LIMIT_FAILED_SENDS)
                 else if large then Some(LIMIT_RECEIPT_CAP)
                 else if exposing then Some(LIMIT_QUEUE_EXPOSURE)
                 else None
  {
    ExposureIsTotal(limits, q.payments);
    var found := Lookup(q.payments, IdOf(payment));
    hide Exposure, Lookup, Total;
  }

  // --- dedupe keys as text -------------------------------------------------------------------------

  /** A key or a digest in base58: no two alike, and never a colon. */
  ghost predicate IsBase58<T(!new)>(text: T -> string) {
    (forall a: T, b: T :: text(a) == text(b) ==> a == b) && (forall a: T :: ':' !in text(a))
  }

  function IdText(id: PaymentId, key: Key -> string, digest: Message -> string): string
    requires id.NonceId? ==> id.index >= 0
  {
    match id
    case NonceId(payer, index, value) => "nonce:" + key(payer) + ":" + Format.Digits(index) + ":" + key(value)
    case FreshId(payer, message) => "fresh:" + key(payer) + ":" + digest(message)
  }

  lemma FirstColon(a: string, rest: string)
    requires ':' !in a
    ensures var whole := a + ":" + rest;
            && whole[|a|] == ':' && whole[..|a|] == a && whole[|a| + 1..] == rest
            && forall k :: 0 <= k < |a| ==> whole[k] != ':'
  {
  }

  /** Text up to the first colon is determined by the whole. */
  lemma UpToColon(a: string, b: string, restA: string, restB: string)
    requires ':' !in a && ':' !in b && a + ":" + restA == b + ":" + restB
    ensures a == b && restA == restB
  {
    FirstColon(a, restA);
    FirstColon(b, restB);
    assert |a| == |b|;
  }

  lemma DigitsHaveNoColon(n: nat)
    ensures ':' !in Format.Digits(n)
  {
  }

  lemma NonceTextIsInjective(a: PaymentId, b: PaymentId, key: Key -> string)
    requires IsBase58(key) && a.NonceId? && b.NonceId? && a.index >= 0 && b.index >= 0
    requires key(a.payer) + ":" + (Format.Digits(a.index) + ":" + key(a.value)) == key(b.payer) + ":"
             + (Format.Digits(b.index) + ":" + key(b.value))
    ensures a == b
  {
    DigitsHaveNoColon(a.index);
    DigitsHaveNoColon(b.index);
    Format.DigitsValue(a.index);
    Format.DigitsValue(b.index);
    hide Format.Digits, Format.NumberOf;
    UpToColon(key(a.payer), key(b.payer), Format.Digits(a.index) + ":" + key(a.value), Format.Digits(b.index) + ":"
              + key(b.value));
    UpToColon(Format.Digits(a.index), Format.Digits(b.index), key(a.value), key(b.value));
  }

  lemma FreshTextIsInjective(a: PaymentId, b: PaymentId, key: Key -> string, digest: Message -> string)
    requires IsBase58(key) && IsBase58(digest) && a.FreshId? && b.FreshId?
    requires key(a.payer) + ":" + digest(a.message) == key(b.payer) + ":" + digest(b.message)
    ensures a == b
  {
    UpToColon(key(a.payer), key(b.payer), digest(a.message), digest(b.message));
  }

  function TextAfterKind(id: PaymentId, key: Key -> string, digest: Message -> string): string
    requires id.NonceId? ==> id.index >= 0
  {
    match id
    case NonceId(payer, index, value) => key(payer) + ":" + (Format.Digits(index) + ":" + key(value))
    case FreshId(payer, message) => key(payer) + ":" + digest(message)
  }

  lemma KindAndRest(id: PaymentId, key: Key -> string, digest: Message -> string)
    requires id.NonceId? ==> id.index >= 0
    ensures IdText(id, key, digest) == (if id.NonceId? then "nonce:" else "fresh:") + TextAfterKind(id, key, digest)
  {
  }

  lemma SameKind(a: string, b: string, restA: string, restB: string)
    requires a in {"nonce:", "fresh:"} && b in {"nonce:", "fresh:"} && a + restA == b + restB
    ensures a == b && restA == restB
  {
    assert (a + restA)[0] == a[0] && (b + restB)[0] == b[0];
    assert (a + restA)[6..] == restA && (b + restB)[6..] == restB;
  }

  /** Two dedupe keys are the same text only for the same slot and value, or the same message. */
  lemma IdTextIsInjective(a: PaymentId, b: PaymentId, key: Key -> string, digest: Message -> string)
    requires IsBase58(key) && IsBase58(digest)
    requires (a.NonceId? ==> a.index >= 0) && (b.NonceId? ==> b.index >= 0)
    requires IdText(a, key, digest) == IdText(b, key, digest)
    ensures a == b
  {
    KindAndRest(a, key, digest);
    KindAndRest(b, key, digest);
    hide IdText, IsBase58, Format.Digits;
    SameKind(if a.NonceId? then "nonce:" else "fresh:", if b.NonceId? then "nonce:" else "fresh:",
             TextAfterKind(a, key, digest), TextAfterKind(b, key, digest));
    if a.NonceId? {
      NonceTextIsInjective(a, b, key);
    } else {
      FreshTextIsInjective(a, b, key, digest);
    }
  }
}
