/** One undisturbed drain, said of the payments it finds: whom it submits, in what order, and what it leaves. */
module QueueDrain {
  import opened Common
  import opened Sign
  import opened NonceCheck
  import opened Submit
  import opened QueueModel
  import opened QueueLaws

  /** The entries a drain submits, in the order it meets them. */
  function Attempted(snapshot: seq<QueuedPayment>): seq<QueuedPayment> {
    if snapshot == [] then []
    else (if snapshot[0].state in {Queued, Failed} then [snapshot[0]] else []) + Attempted(snapshot[1..])
  }

  function Answer(e: QueuedPayment, key: Key, sends: PaymentId -> (seq<Byte>, Network)): Result<SubmitOutcome> {
    Submit.Submit(e.payment, key, sends(e.id).0, sends(e.id).1)
  }

  // --- whom it submits, and in what order ----------------------------------------------------------

  predicate NoYounger(limits: Limits, a: QueuedPayment, b: QueuedPayment) {
    a.acceptedAt <= b.acceptedAt && (a.acceptedAt == b.acceptedAt ==> limits.collate(a.id) <= limits.collate(b.id))
  }

  predicate OldestFirst(limits: Limits, entries: seq<QueuedPayment>) {
    forall j, k :: 0 <= j < k < |entries| ==> NoYounger(limits, entries[j], entries[k])
  }

  lemma {:induction false} AttemptedAre(snapshot: seq<QueuedPayment>)
    ensures forall e :: multiset(Attempted(snapshot))[e] ==
                        if e.state in {Queued, Failed} then multiset(snapshot)[e] else 0
  {
    if snapshot != [] {
      AttemptedAre(snapshot[1..]);
      assert snapshot == [snapshot[0]] + snapshot[1..];
    }
  }

  lemma {:induction false} AttemptedInOrder(limits: Limits, snapshot: seq<QueuedPayment>)
    requires OldestFirst(limits, snapshot)
    ensures OldestFirst(limits, Attempted(snapshot))
    ensures forall e :: e in Attempted(snapshot) ==> e in snapshot
  {
    hide NoYounger;
    if snapshot != [] {
      var rest, attempts := snapshot[1..], Attempted(snapshot[1..]);
      assert forall k :: 0 <= k < |rest| ==> rest[k] == snapshot[k + 1];
      AttemptedInOrder(limits, rest);
      forall e | e in attempts
        ensures NoYounger(limits, snapshot[0], e)
      {
        var k :| 0 <= k < |rest| && rest[k] == e;
      }
    }
  }

  /** Each attempt's outcome in turn, up to the one that throws. */
  lemma {:induction false} OutcomesInTurn(q: QueueState, snapshot: seq<QueuedPayment>, key: Key,
                                          sends: PaymentId -> (seq<Byte>, Network)) returns (n: nat)
    ensures var r, attempts := DrainFrom(q, snapshot, key, sends).1, Attempted(snapshot);
            && n <= |attempts|
            && (forall j :: 0 <= j < n ==> Answer(attempts[j], key, sends).Ok?)
            && (r.Ok? ==> n == |attempts| == |r.value|
                          && forall j :: 0 <= j < n ==> Answer(attempts[j], key, sends) == Ok(r.value[j]))
            && (r.Err? ==> n < |attempts| && Answer(attempts[n], key, sends) == Err(r.code))
    decreases |snapshot|
  {
    hide Submit.Submit, Save, CountOutcome;
    if snapshot == [] {
      n := 0;
    } else if !Eligible(snapshot[0]) {
      n := OutcomesInTurn(q, snapshot[1..], key, sends);
    } else {
      var begun := BeginAttempt(q, snapshot[0]);
      match Answer(snapshot[0], key, sends)
      case Err(_) => n := 0;
      case Ok(outcome) =>
        var after := CountOutcome(EndAttempt(begun, snapshot[0], outcome), outcome);
        var rest := OutcomesInTurn(after, snapshot[1..], key, sends);
        n := rest + 1;
    }
  }

  /**
    A drain submits exactly the queued and failed payments, the oldest first, one at a time: its outcomes
    are theirs in that order, and where a submission throws the drain ends there, everything older done.
   */
  lemma DrainSubmitsOldestFirst(limits: Limits, q: QueueState, key: Key, sends: PaymentId -> (seq<Byte>, Network))
    returns (n: nat)
    ensures var r, attempts := DrainFrom(q, Ordered(limits, q.payments), key, sends).1,
            Attempted(Ordered(limits, q.payments));
            && OldestFirst(limits, attempts)
            && (forall e :: multiset(attempts)[e] == if e.state in {Queued, Failed} then multiset(q.payments)[e] else 0)
            && n <= |attempts| && (forall j :: 0 <= j < n ==> Answer(attempts[j], key, sends).Ok?)
            && (r.Ok? ==> n == |attempts| == |r.value|
                          && forall j :: 0 <= j < n ==> Answer(attempts[j], key, sends) == Ok(r.value[j]))
            && (r.Err? ==> n < |attempts| && Answer(attempts[n], key, sends) == Err(r.code))
  {
    OrderedIsOldestFirst(limits, q.payments);
    hide Ordered, DrainFrom, Answer;
    AttemptedAre(Ordered(limits, q.payments));
    AttemptedInOrder(limits, Ordered(limits, q.payments));
    n := OutcomesInTurn(q, Ordered(limits, q.payments), key, sends);
  }

  // --- what it leaves ------------------------------------------------------------------------------

  /** What is left of an entry: settled or failed as its outcome says, once more attempted, nothing else changed. */
  function Left(e: QueuedPayment, outcome: SubmitOutcome): QueuedPayment {
    match outcome
    case SettledAs(_, _) =>
      QueuedPayment(e.id, e.payment, e.tier, e.acceptedAt, e.amount, e.attempts + 1, e.lastError, Settled)
    case FailedAs(code, _) =>
      QueuedPayment(e.id, e.payment, e.tier, e.acceptedAt, e.amount, e.attempts + 1, Some(code), Failed)
  }

  lemma EndedIsLeft(e: QueuedPayment, outcome: SubmitOutcome)
    ensures Ended(e, outcome) == Left(e, outcome) && Begun(e).id == e.id
  {
  }

  /** One attempt, in memory: its entry is what is left of it, every other entry is as it was. */
  lemma OneAttemptLeaves(q: QueueState, e: QueuedPayment, outcome: SubmitOutcome)
    requires Distinct(q.payments) && Lookup(q.payments, e.id).Some?
    ensures var v := CountOutcome(EndAttempt(BeginAttempt(q, e), e, outcome), outcome);
            && Distinct(v.payments)
            && (forall x :: x in v.payments <==> x == Left(e, outcome) || (x in q.payments && x.id != e.id))
            && (forall id :: Lookup(q.payments, id).Some? <==> Lookup(v.payments, id).Some?)
  {
    EndedIsLeft(e, outcome);
    hide Put, Distinct, Ended, PutAll, Lookup;
    var begun := Put(q.payments, Begun(e));
    PutEntries(q.payments, Begun(e));
    PutEntries(begun, Ended(e, outcome));
    forall id
      ensures Lookup(q.payments, id).Some? <==> Lookup(Put(begun, Ended(e, outcome)), id).Some?
    {
      LookupPut(q.payments, Begun(e), id);
      LookupPut(begun, Ended(e, outcome), id);
    }
  }

  /** The queue after the attempts on `snapshot` have all been made. */
  ghost predicate LeftBy(payments: seq<QueuedPayment>, after: seq<QueuedPayment>, snapshot: seq<QueuedPayment>,
                         key: Key, sends: PaymentId -> (seq<Byte>, Network))
  {
    && Distinct(after)
    && (forall e :: e in snapshot && e.state in {Queued, Failed} ==>
                      Answer(e, key, sends).Ok? && Left(e, Answer(e, key, sends).value) in after)
    && (forall e :: e in payments && !(e in snapshot && e.state in {Queued, Failed}) ==> e in after)
    && |after| == |payments|
  }

  lemma {:induction false} PutOver(payments: seq<QueuedPayment>, e: QueuedPayment)
    requires Lookup(payments, e.id).Some?
    ensures |Put(payments, e)| == |payments|
  {
    if payments[0].id != e.id {
      PutOver(payments[1..], e);
    }
  }

  lemma {:induction false} LoopLeaves(q: QueueState, snapshot: seq<QueuedPayment>, key: Key,
                                      sends: PaymentId -> (seq<Byte>, Network))
    requires Distinct(q.payments) && Distinct(snapshot) && forall e :: e in snapshot ==> e in q.payments
    requires DrainFrom(q, snapshot, key, sends).1.Ok?
    ensures LeftBy(q.payments, DrainFrom(q, snapshot, key, sends).0.payments, snapshot, key, sends)
    decreases |snapshot|
  {
    hide Submit.Submit, Put, Distinct, Left;
    if snapshot == [] {
    } else if !Eligible(snapshot[0]) {
      DistinctHead(snapshot);
      LoopLeaves(q, snapshot[1..], key, sends);
      PassedOver(q.payments, DrainFrom(q, snapshot, key, sends).0.payments, snapshot, key, sends);
    } else {
      DistinctHead(snapshot);
      assert snapshot[0] in snapshot;
      LookupFinds(q.payments, snapshot[0]);
      var outcome := Answer(snapshot[0], key, sends).value;
      var v := CountOutcome(EndAttempt(BeginAttempt(q, snapshot[0]), snapshot[0], outcome), outcome);
      OneAttemptLeaves(q, snapshot[0], outcome);
      AttemptLength(q, snapshot[0], outcome);
      LoopLeaves(v, snapshot[1..], key, sends);
      var after := DrainFrom(v, snapshot[1..], key, sends).0.payments;
      hide DrainFrom, CountOutcome, EndAttempt, BeginAttempt, Lookup;
      AttemptThenRest(q.payments, v.payments, after, snapshot, key, sends);
    }
  }

  lemma AttemptLength(q: QueueState, e: QueuedPayment, outcome: SubmitOutcome)
    requires Lookup(q.payments, e.id).Some?
    ensures |CountOutcome(EndAttempt(BeginAttempt(q, e), e, outcome), outcome).payments| == |q.payments|
  {
    EndedIsLeft(e, outcome);
    hide Put, Lookup, Ended, PutAll;
    PutOver(q.payments, Begun(e));
    LookupPut(q.payments, Begun(e), e.id);
    PutOver(Put(q.payments, Begun(e)), Ended(e, outcome));
  }

  lemma PassedOver(payments: seq<QueuedPayment>, after: seq<QueuedPayment>, snapshot: seq<QueuedPayment>, key: Key,
                   sends: PaymentId -> (seq<Byte>, Network))
    requires snapshot != [] && snapshot[0].state !in {Queued, Failed}
    requires LeftBy(payments, after, snapshot[1..], key, sends)
    ensures LeftBy(payments, after, snapshot, key, sends)
  {
    assert forall e :: e in snapshot <==> e == snapshot[0] || e in snapshot[1..];
    hide Answer, Left, Distinct;
  }

  lemma AttemptThenRest(payments: seq<QueuedPayment>, once: seq<QueuedPayment>, after: seq<QueuedPayment>,
                        snapshot: seq<QueuedPayment>, key: Key, sends: PaymentId -> (seq<Byte>, Network))
    requires snapshot != [] && snapshot[0].state in {Queued, Failed} && Answer(snapshot[0], key, sends).Ok?
    requires Distinct(payments) && |once| == |payments| && forall e :: e in snapshot ==> e in payments
    requires forall x :: x in once <==>
                         || x == Left(snapshot[0], Answer(snapshot[0], key, sends).value)
                         || (x in payments && x.id != snapshot[0].id)
    requires forall x :: x in snapshot[1..] ==> x.id != snapshot[0].id
    requires LeftBy(once, after, snapshot[1..], key, sends)
    ensures LeftBy(payments, after, snapshot, key, sends)
  {
    var left := Left(snapshot[0], Answer(snapshot[0], key, sends).value);
    assert forall e :: e in snapshot <==> e == snapshot[0] || e in snapshot[1..];
    assert left in once && left.id == snapshot[0].id;
    assert left in after;
    forall e | e in payments && !(e in snapshot && e.state in {Queued, Failed})
      ensures e in after
    {
      if e.id == snapshot[0].id {
        SameIdSame(payments, e, snapshot[0]);
      }
    }
    hide Answer, Left, Distinct;
  }

  lemma SameIdSame(payments: seq<QueuedPayment>, a: QueuedPayment, b: QueuedPayment)
    requires Distinct(payments) && a in payments && b in payments && a.id == b.id
    ensures a == b
  {
  }

  /**
    What a drain that runs to its end leaves: every queued or failed payment settled or failed as its own
    outcome says, once more attempted; every other payment as it was; nothing more and nothing less.
   */
  lemma DrainLeaves(limits: Limits, q: QueueState, key: Key, sends: PaymentId -> (seq<Byte>, Network))
    requires Distinct(q.payments) && DrainFrom(q, Ordered(limits, q.payments), key, sends).1.Ok?
    ensures var after := DrainFrom(q, Ordered(limits, q.payments), key, sends).0.payments;
            && Distinct(after) && |after| == |q.payments|
            && forall e :: e in q.payments ==>
                             if e.state in {Queued, Failed}
                             then Answer(e, key, sends).Ok? && Left(e, Answer(e, key, sends).value) in after
                             else e in after
  {
    OrderedSorts(limits, q.payments);
    PermutationEntries(q.payments, Ordered(limits, q.payments));
    hide Ordered, DrainFrom, Answer, Left, Distinct;
    LoopLeaves(q, Ordered(limits, q.payments), key, sends);
  }

  // --- what counts against the merchant ------------------------------------------------------------

  /** Two failures add one to the counter, a settlement clears it, and anything else leaves it as it was. */
  lemma CountsExactly(counter: nat, outcome: SubmitOutcome)
    ensures match outcome
            case SettledAs(_, _) => Count(counter, outcome) == 0
            case FailedAs(code, _) =>
              Count(counter, outcome) ==
              if code == SUBMIT_EXECUTION_FAILED || code == SUBMIT_NONCE_ABSENT then counter + 1 else counter
  {
  }

  /**
    An honest race never counts against a merchant: on the nonce path an attempt counts exactly when the
    transaction landed and failed, when the account it comes down to is not the payer's, or when that
    account holds the very value claimed and the error alone says that the execution failed.
   */
  lemma WhatCounts(payment: VerifiedPayment, key: Key, signature: seq<Byte>, net: Network, counter: nat)
    requires Submit.Submit(payment, key, signature, net).Ok? && payment.input.intent.lifetime.DurableNonce?
    ensures payment.input.nonceRef.Some? && (AsksTheAccount(payment, net) ==> net.accountAtCheck.Some?)
    ensures var account, payer, claimed := net.accountAtCheck, payment.input.payer, payment.input.nonceRef.value.value;
            var reported := net.send.Confirmed? && net.accountAfterSend.Some?;
            Count(counter, Submit.Submit(payment, key, signature, net).value) == counter + 1 <==>
            || (!reported && net.lookup == Some(LandedFailed))
            || (AsksTheAccount(payment, net) && !(account.value.Initialized? && account.value.authority == payer))
            || (AsksTheAccount(payment, net) && FailureOf(net) == ExecutionFailed
                && account.value.Initialized? && account.value.authority == payer && account.value.value == claimed)
  {
  }
}
