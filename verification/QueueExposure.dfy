/** How the exposure of the queue moves: what raises it, what a crash does to it, and when it stays within the cap. */
module QueueExposure {
  import opened Common
  import opened Sign
  import opened NonceCheck
  import opened Submit
  import opened QueueModel
  import opened QueueLaws
  import opened QueueRuns

  // --- what raises it ------------------------------------------------------------------------------

  /** A save over what is held, which exposes no more than that did. */
  lemma SaveLowers(q: QueueState, held: QueuedPayment, e: QueuedPayment)
    requires held.id == e.id && Holds(q, held) && Exposed(e) <= Exposed(held)
    ensures Total(Issue(q, e).payments, Exposed) <= Total(q.payments, Exposed)
  {
    hide Exposed, Total;
    IssueTotal(q, e, Exposed);
  }

  lemma VoidLowers(q: QueueState, x: QueuedPayment)
    requires Voids(q, x) && Lookup(q.payments, x.id).value.amount >= 0
    ensures Total(Issue(q, x).payments, Exposed) <= Total(q.payments, Exposed)
  {
    hide Total;
    IssueTotal(q, x, Exposed);
  }

  /** Voidings that may be issued one after the other, of amounts that are not negative. */
  ghost predicate Voidable(q: QueueState, entries: seq<QueuedPayment>) {
    Distinct(entries) && forall x :: x in entries ==> Voids(q, x) && x.amount >= 0
  }

  lemma VoidableHead(q: QueueState, entries: seq<QueuedPayment>)
    requires entries != [] && Voidable(q, entries)
    ensures Voids(q, entries[0]) && entries[0].amount >= 0 && Voidable(Issue(q, entries[0]), entries[1..])
  {
    assert entries[0] in entries;
    RestVoids(q, entries);
    DistinctHead(entries);
  }

  lemma {:induction false} VoidingsLower(q: QueueState, entries: seq<QueuedPayment>)
    requires Voidable(q, entries)
    ensures Total(IssueAll(q, entries).payments, Exposed) <= Total(q.payments, Exposed)
    decreases |entries|
  {
    if entries != [] {
      VoidableHead(q, entries);
      VoidLowers(q, entries[0]);
      hide Voidable, Issue, Total;
      VoidingsLower(Issue(q, entries[0]), entries[1..]);
    }
  }

  lemma HeldAmounts(w: World, x: QueuedPayment)
    requires Inv(w) && Voids(w.q, x)
    ensures x.amount >= 0
  {
    HeldIsOk(w, Lookup(w.q.payments, x.id).value);
  }

  lemma ExpiryIsVoidable(limits: Limits, w: World, now: int)
    requires Inv(w)
    ensures Voidable(w.q, Expire(limits, w.q, now).1)
  {
    assert Distinct(w.q.payments);
    ExpireSaves(limits, w.q, now);
    hide Inv, Voids, Voidings, Ordered, Distinct, Overdue;
    forall x | x in Expire(limits, w.q, now).1
      ensures x.amount >= 0
    {
      HeldAmounts(w, x);
    }
  }

  lemma ChooseLowers(limits: Limits, w: World, s: Step)
    requires Inv(w) && s.Choose? && Enabled(w, s)
    ensures Total(After(limits, w, s).q.payments, Exposed) <= Total(w.q.payments, Exposed)
  {
    hide Total, Tidy, EntriesOk, AttemptsOk, AttemptOk, Books, CounterOk, Issue, Distinct;
    if w.drain.rest != [] && Eligible(w.drain.rest[0]) {
      var queued := w.drain.rest[0];
      assert queued in w.drain.rest;
      SaveLowers(w.q, queued, Begun(queued));
    }
  }

  lemma ReturnLowers(limits: Limits, w: World, s: Step)
    requires Inv(w) && s.Return? && Enabled(w, s)
    ensures Total(After(limits, w, s).q.payments, Exposed) <= Total(w.q.payments, Exposed)
  {
    var queued := w.drain.queued;
    HeldIsOk(w, Begun(queued));
    hide Submit.Submit, Truthful, Total, Inv, Tidy, EntriesOk, Issue;
    assert Holds(w.q, Begun(queued)) by {
      AttemptHeld(w);
    }
    var r := Submit.Submit(queued.payment, s.key, s.signature, s.net);
    if r.Ok? {
      SaveLowers(w.q, Begun(queued), Ended(queued, r.value));
    }
  }

  lemma AttemptHeld(w: World)
    requires Inv(w) && w.drain.Sending?
    ensures Holds(w.q, Begun(w.drain.queued))
  {
  }

  /** Nothing but accepting a payment, or a crash, raises the exposure: no step of a drain does, nor expiry. */
  lemma OnlyAcceptanceRaisesExposure(limits: Limits, w: World, s: Step)
    requires Inv(w) && Enabled(w, s) && !s.AcceptPayment? && !s.Restart?
    ensures Total(After(limits, w, s).q.payments, Exposed) <= Total(w.q.payments, Exposed)
  {
    match s
    case Choose => ChooseLowers(limits, w, s);
    case Return(_, _, _) => ReturnLowers(limits, w, s);
    case ExpireAt(now) =>
      ExpiryIsVoidable(limits, w, now);
      VoidingsLower(w.q, Expire(limits, w.q, now).1);
    case _ =>
  }

  // --- what a crash does to it ---------------------------------------------------------------------

  /** What a crash would make unsettled again: settled or voided in memory, but not yet in the store. */
  function Forgotten(q: QueueState): QueuedPayment -> int {
    (e: QueuedPayment) =>
      if Final(e) && e in q.pending && Lookup(q.stored, e.id).Some? && e.tier != T0 then e.amount else 0
  }

  /** What a crash would forget: exposed in memory, the store not having it at all. */
  function Unaccepted(q: QueueState): QueuedPayment -> int {
    (e: QueuedPayment) => if Lookup(q.stored, e.id).None? then Exposed(e) else 0
  }

  /** What the store has under the key of an entry. */
  function StoredWeight(stored: seq<QueuedPayment>, weight: QueuedPayment -> int): QueuedPayment -> int {
    (e: QueuedPayment) => WeightOf(Lookup(stored, e.id), weight)
  }

  lemma {:induction false} TotalOfNothing(payments: seq<QueuedPayment>, weight: QueuedPayment -> int)
    ensures Total(payments, StoredWeight([], weight)) == 0
  {
    if payments != [] {
      TotalOfNothing(payments[1..], weight);
    }
  }

  /** One more entry in the store adds its weight once, at the one entry of memory that has its key. */
  lemma {:induction false} OneMoreStored(payments: seq<QueuedPayment>, stored: seq<QueuedPayment>,
                                         weight: QueuedPayment -> int)
    requires Distinct(payments) && stored != [] && Lookup(stored[1..], stored[0].id).None?
    ensures Total(payments, StoredWeight(stored, weight)) ==
            Total(payments, StoredWeight(stored[1..], weight))
            + if Lookup(payments, stored[0].id).Some? then weight(stored[0]) else 0
  {
    if payments != [] {
      OneMoreStored(payments[1..], stored, weight);
      if payments[0].id == stored[0].id {
        assert Lookup(payments[1..], stored[0].id).None?;
      }
    }
  }

  /** The store's total, found key by key from memory, when memory has every key. */
  lemma {:induction false} TotalByKey(payments: seq<QueuedPayment>, stored: seq<QueuedPayment>,
                                      weight: QueuedPayment -> int)
    requires Distinct(payments) && Distinct(stored)
    requires forall e :: e in stored ==> Lookup(payments, e.id).Some?
    ensures Total(payments, StoredWeight(stored, weight)) == Total(stored, weight)
    decreases |stored|
  {
    hide Lookup;
    if stored == [] {
      TotalOfNothing(payments, weight);
    } else {
      RestOf(stored);
      TotalByKey(payments, stored[1..], weight);
      assert Lookup(stored[1..], stored[0].id).None?;
      OneMoreStored(payments, stored, weight);
    }
  }

  lemma {:induction false} TotalsBalance(payments: seq<QueuedPayment>, whole: QueuedPayment -> int,
                                         a: QueuedPayment -> int, b: QueuedPayment -> int, c: QueuedPayment -> int)
    requires forall e :: e in payments ==> whole(e) == a(e) + b(e) - c(e)
    ensures Total(payments, whole) == Total(payments, a) + Total(payments, b) - Total(payments, c)
  {
    if payments != [] {
      TotalsBalance(payments[1..], whole, a, b, c);
    }
  }

  /** An entry saved as final and held by the store as something else is still to be stored. */
  lemma PendingExactly(q: QueueState, e: QueuedPayment)
    requires Tidy(q) && Holds(q, e) && Final(e)
    ensures e in q.stored <==> e !in q.pending
    ensures e in q.pending && Lookup(q.stored, e.id).Some? ==> !Final(Lookup(q.stored, e.id).value)
  {
    hide PutAll;
    HeldIsVersion(q, e.id);
    var found := Lookup(q.stored, e.id);
    if found.Some? && Final(found.value) {
      assert IsKnown(q, found.value);
    }
  }

  lemma StoredExposes(w: World, e: QueuedPayment)
    requires Inv(w) && e in w.q.payments
    ensures StoredWeight(w.q.stored, Exposed)(e) == Exposed(e) + Forgotten(w.q)(e) - Unaccepted(w.q)(e)
  {
    hide PutAll, FinalIsLast, EntriesOk, AttemptsOk, RestOk, AttemptOk, Books;
    LookupFinds(w.q.payments, e);
    var found := Lookup(w.q.stored, e.id);
    if found.Some? {
      assert IsKnown(w.q, found.value);
    }
    if Final(e) {
      PendingExactly(w.q, e);
      if e in w.q.stored {
        LookupFinds(w.q.stored, e);
      }
    }
  }

  /**
    A crash changes the exposure by exactly what it loses: up by the settlements and voidings the store did
    not have yet, down by the acceptances it did not have yet.
   */
  lemma ACrashChangesExposureBy(limits: Limits, w: World, s: Step)
    requires Inv(w) && s.Restart? && Enabled(w, s)
    ensures Total(After(limits, w, s).q.payments, Exposed)
            == Total(w.q.payments, Exposed) + Total(w.q.payments, Forgotten(w.q)) - Total(w.q.payments, Unaccepted(w.q))
  {
    assert Distinct(w.q.payments) && Distinct(w.q.stored);
    LoadRestores(w.q.stored, w.q.storedMeta, s.keys);
    TotalOfPermutation(After(limits, w, s).q.payments, w.q.stored, Exposed);
    forall e | e in w.q.stored
      ensures Lookup(w.q.payments, e.id).Some?
    {
      assert IsKnown(w.q, e);
    }
    hide Load, Exposed, Distinct, Lookup, Forgotten, Unaccepted, StoredWeight;
    TotalByKey(w.q.payments, w.q.stored, Exposed);
    forall e | e in w.q.payments
      ensures StoredWeight(w.q.stored, Exposed)(e) == Exposed(e) + Forgotten(w.q)(e) - Unaccepted(w.q)(e)
    {
      StoredExposes(w, e);
    }
    hide Inv;
    TotalsBalance(w.q.payments, StoredWeight(w.q.stored, Exposed), Exposed, Forgotten(w.q), Unaccepted(w.q));
  }

  // --- the cap -------------------------------------------------------------------------------------

  /** However far the store gets with its writes in order, what it then has is within the cap. */
  ghost predicate CapOk(limits: Limits, q: QueueState) {
    forall j :: 0 <= j <= |q.pending| ==> Total(PutAll(q.stored, q.pending[..j]), Exposed) <= limits.queueExposureCap
  }

  /** The store gets its writes in the order they were issued. */
  predicate InOrder(steps: seq<Step>) {
    forall k :: 0 <= k < |steps| && steps[k].Store? ==> steps[k].k == 0
  }

  lemma CapInMemory(limits: Limits, q: QueueState)
    requires Aligned(q) && CapOk(limits, q)
    ensures Total(q.payments, Exposed) <= limits.queueExposureCap
  {
    hide PutAll, Total;
    AlignedTotal(q, Exposed);
    assert q.pending[..|q.pending|] == q.pending;
  }

  lemma IssueCap(limits: Limits, q: QueueState, e: QueuedPayment)
    requires Aligned(q) && CapOk(limits, q) && Total(Issue(q, e).payments, Exposed) <= limits.queueExposureCap
    ensures CapOk(limits, Issue(q, e))
  {
    IssueAligned(q, e);
    hide PutAll, Total, Aligned, Exposed;
    var v := Issue(q, e);
    AlignedTotal(v, Exposed);
    forall j | 0 <= j <= |v.pending|
      ensures Total(PutAll(v.stored, v.pending[..j]), Exposed) <= limits.queueExposureCap
    {
      if j <= |q.pending| {
        assert v.pending[..j] == q.pending[..j];
      } else {
        assert v.pending[..j] == v.pending;
      }
    }
  }

  lemma StoreCap(limits: Limits, q: QueueState)
    requires q.pending != [] && CapOk(limits, q)
    ensures CapOk(limits, StoreAt(q, 0))
  {
    hide PutAll, Total, Exposed;
    var v := StoreAt(q, 0);
    assert v.pending == q.pending[1..];
    forall j | 0 <= j <= |v.pending|
      ensures Total(PutAll(v.stored, v.pending[..j]), Exposed) <= limits.queueExposureCap
    {
      PutAllCons(q.stored, q.pending[..j + 1]);
      assert q.pending[..j + 1][1..] == v.pending[..j] && q.pending[..j + 1][0] == q.pending[0];
    }
  }

  lemma ReloadCap(limits: Limits, q: QueueState, v: QueueState)
    requires CapOk(limits, q) && v.stored == q.stored && v.pending == []
    ensures CapOk(limits, v)
  {
    assert v.pending[..0] == q.pending[..0];
    hide PutAll, Total;
  }

  lemma {:induction false} VoidingsCap(limits: Limits, q: QueueState, entries: seq<QueuedPayment>)
    requires Aligned(q) && CapOk(limits, q) && Voidable(q, entries)
    ensures CapOk(limits, IssueAll(q, entries))
    decreases |entries|
  {
    if entries != [] {
      VoidableHead(q, entries);
      hide Voidable, Aligned, CapOk, Put, Total, Voids;
      CapInMemory(limits, q);
      VoidLowers(q, entries[0]);
      IssueCap(limits, q, entries[0]);
      IssueAligned(q, entries[0]);
      VoidingsCap(limits, Issue(q, entries[0]), entries[1..]);
    }
  }

  lemma AcceptCap(limits: Limits, w: World, s: Step)
    requires Inv(w) && CapOk(limits, w.q) && s.AcceptPayment? && Enabled(w, s)
    ensures CapOk(limits, After(limits, w, s).q)
  {
    hide Inv, Exposure, Lookup, Total, CapOk, Put, Aligned, Known, FinalIsLast;
    var payment, amount := s.payment, s.payment.input.amount;
    if Refusal(limits, w.q, payment, s.tier, amount, s.precheck).None? {
      var e := Accepted(payment, s.tier, amount, s.now);
      assert Aligned(w.q) by {
        InvIsAligned(w);
      }
      CapInMemory(limits, w.q);
      ExposureIsTotal(limits, w.q.payments);
      IssueTotal(w.q, e, Exposed);
      IssueCap(limits, w.q, e);
    }
  }

  lemma InvIsAligned(w: World)
    requires Inv(w)
    ensures Aligned(w.q)
  {
  }

  /** A step that issues one write or none, and does not raise the exposure. */
  lemma LoweringCap(limits: Limits, w: World, v: World)
    requires Inv(w) && CapOk(limits, w.q) && Total(v.q.payments, Exposed) <= Total(w.q.payments, Exposed)
    requires (v.q.stored == w.q.stored && v.q.pending == w.q.pending) || exists e :: v.q == Issue(w.q, e)
    ensures CapOk(limits, v.q)
  {
    hide Inv, Total, Aligned, PutAll, Exposed;
    InvIsAligned(w);
    CapInMemory(limits, w.q);
    if !(v.q.stored == w.q.stored && v.q.pending == w.q.pending) {
      var e :| v.q == Issue(w.q, e);
      IssueCap(limits, w.q, e);
    }
  }

  lemma StepIssuesOne(limits: Limits, w: World, s: Step)
    requires Enabled(w, s) && !s.AcceptPayment? && !s.Store? && !s.ExpireAt? && !s.Restart?
    ensures var v := After(limits, w, s);
            (v.q.stored == w.q.stored && v.q.pending == w.q.pending) || exists e :: v.q == Issue(w.q, e)
  {
    hide Issue, Submit.Submit, Ordered;
  }

  lemma StepKeepsCap(limits: Limits, w: World, s: Step)
    requires Inv(w) && CapOk(limits, w.q) && Enabled(w, s) && (s.Store? ==> s.k == 0)
    ensures CapOk(limits, After(limits, w, s).q)
  {
    hide Inv, CapOk, Total, Aligned, Exposed, Lookup;
    match s
    case AcceptPayment(_, _, _, _) => AcceptCap(limits, w, s);
    case Store(_) => StoreCap(limits, w.q);
    case ExpireAt(now) =>
      InvIsAligned(w);
      ExpiryIsVoidable(limits, w, now);
      VoidingsCap(limits, w.q, Expire(limits, w.q, now).1);
    case Restart(keys) => ReloadCap(limits, w.q, After(limits, w, s).q);
    case _ =>
      OnlyAcceptanceRaisesExposure(limits, w, s);
      StepIssuesOne(limits, w, s);
      hide After, Enabled;
      LoweringCap(limits, w, After(limits, w, s));
  }

  lemma StartIsCapped(limits: Limits)
    requires limits.queueExposureCap >= 0
    ensures CapOk(limits, START.q)
  {
    assert PutAll([], []) == [] && Total([], Exposed) == 0;
  }

  lemma StoresInOrder(steps: seq<Step>, k: nat)
    requires InOrder(steps) && k < |steps|
    ensures steps[k].Store? ==> steps[k].k == 0
  {
  }

  lemma {:induction false} RunsKeepCap(limits: Limits, worlds: seq<World>, steps: seq<Step>, k: nat)
    requires IsRun(limits, worlds, steps) && k <= |steps| && limits.queueExposureCap >= 0 && InOrder(steps)
    ensures k < |worlds| && CapOk(limits, worlds[k].q)
    decreases k
  {
    hide Inv, After, Enabled, CapOk, InOrder;
    if k == 0 {
      StartIsCapped(limits);
    } else {
      hide IsRun;
      RunsKeepCap(limits, worlds, steps, k - 1);
      RunsKeepInv(limits, worlds, steps, k - 1);
      RunStep(limits, worlds, steps, k - 1);
      StoresInOrder(steps, k - 1);
      StepKeepsCap(limits, worlds[k - 1], steps[k - 1]);
    }
  }

  /**
    At every step of every run in which the store gets its writes in order, with payments accepted between
    any two steps of a drain and crashes anywhere, the unsettled T1 and T2 total is within the cap.
   */
  lemma ExposureNeverExceedsCap(limits: Limits, worlds: seq<World>, steps: seq<Step>, k: nat)
    requires IsRun(limits, worlds, steps) && k <= |steps| && limits.queueExposureCap >= 0 && InOrder(steps)
    ensures Exposure(limits, worlds[k].q.payments) <= limits.queueExposureCap
  {
    hide Exposure, InOrder;
    RunsKeepInv(limits, worlds, steps, k);
    RunsKeepCap(limits, worlds, steps, k);
    InvIsAligned(worlds[k]);
    hide Inv, Aligned, CapOk;
    CapInMemory(limits, worlds[k].q);
    ExposureIsTotal(limits, worlds[k].q.payments);
  }

  predicate WithinCap(limits: Limits, w: World) {
    Total(w.q.payments, Exposed) <= limits.queueExposureCap
  }

  /** A crash at this moment would leave the exposure within the cap. */
  predicate CrashFits(limits: Limits, w: World) {
    Total(w.q.payments, Exposed) + Total(w.q.payments, Forgotten(w.q)) - Total(w.q.payments, Unaccepted(w.q))
    <= limits.queueExposureCap
  }

  lemma CapStep(limits: Limits, w: World, s: Step)
    requires Inv(w) && Enabled(w, s) && WithinCap(limits, w)
    ensures WithinCap(limits, After(limits, w, s)) <==> (s.Restart? ==> CrashFits(limits, w))
  {
    hide Inv, Total, Exposed, Forgotten, Unaccepted, Exposure, Lookup, Put;
    if s.Restart? {
      ACrashChangesExposureBy(limits, w, s);
    } else if s.AcceptPayment? {
      ExposureIsTotal(limits, w.q.payments);
      IssueTotal(w.q, Accepted(s.payment, s.tier, s.payment.input.amount, s.now), Exposed);
      AcceptedExposes(s);
    } else {
      OnlyAcceptanceRaisesExposure(limits, w, s);
    }
  }

  lemma AcceptedExposes(s: Step)
    requires s.AcceptPayment?
    ensures var e := Accepted(s.payment, s.tier, s.payment.input.amount, s.now);
            Exposed(e) == if s.tier == T0 then 0 else s.payment.input.amount
  {
  }

  /**
    Whatever order the store keeps, as long as it keeps it for each key: the exposure is within the cap
    throughout a run if and only if each crash of the run comes when the settlements and voidings it
    loses, less the acceptances it loses, still fit.
   */
  lemma {:induction false} CapHoldsExactlyWhen(limits: Limits, worlds: seq<World>, steps: seq<Step>, n: nat)
    requires IsRun(limits, worlds, steps) && n <= |steps| && limits.queueExposureCap >= 0
    ensures (forall k :: 0 <= k <= n ==> WithinCap(limits, worlds[k]))
            <==> (forall k :: 0 <= k < n && steps[k].Restart? ==> CrashFits(limits, worlds[k]))
    decreases n
  {
    hide Inv, After, Enabled, CrashFits;
    if n == 0 {
      assert Total([], Exposed) == 0;
    } else {
      hide WithinCap;
      CapHoldsExactlyWhen(limits, worlds, steps, n - 1);
      RunsKeepInv(limits, worlds, steps, n - 1);
      RunStep(limits, worlds, steps, n - 1);
      if WithinCap(limits, worlds[n - 1]) {
        CapStep(limits, worlds[n - 1], steps[n - 1]);
      }
    }
  }
}
