/**
  The queue as the source runs it: a map and a counter, updated in place, and writes to a store that
  stores them in the order they were issued, some time later.
 */
module QueueObject {
  import opened Common
  import opened Sign
  import opened NonceCheck
  import opened Submit
  import opened QueueModel

  type Drained = (QueueState, Result<seq<SubmitOutcome>>)

  function After(done: seq<SubmitOutcome>, rest: Drained): Drained {
    (rest.0, match rest.1 case Ok(outcomes) => Ok(done + outcomes) case Err(code) => Err(code))
  }

  /** One turn of `drain`. */
  lemma DrainTurn(q: QueueState, snapshot: seq<QueuedPayment>, key: Key, sends: PaymentId -> (seq<Byte>, Network),
                  k: nat, done: seq<SubmitOutcome>)
    requires k < |snapshot|
    ensures var queued, all := snapshot[k], After(done, DrainFrom(q, snapshot[k..], key, sends));
            var begun, outcome := BeginAttempt(q, queued),
              Submit.Submit(queued.payment, key, sends(queued.id).0, sends(queued.id).1);
            if !Eligible(queued) then all == After(done, DrainFrom(q, snapshot[k + 1..], key, sends))
            else if outcome.Err? then all == (begun, Err(outcome.code))
            else all == After(done + [outcome.value],
                              DrainFrom(CountOutcome(EndAttempt(begun, queued, outcome.value), outcome.value),
                                        snapshot[k + 1..], key, sends))
  {
    hide Submit.Submit, Save;
    var queued := snapshot[k];
    assert snapshot[k..][0] == queued && snapshot[k..][1..] == snapshot[k + 1..];
    var outcome := Submit.Submit(queued.payment, key, sends(queued.id).0, sends(queued.id).1);
    if Eligible(queued) && outcome.Ok? {
      var rest := DrainFrom(CountOutcome(EndAttempt(BeginAttempt(q, queued), queued, outcome.value), outcome.value),
                            snapshot[k + 1..], key, sends);
      if rest.1.Ok? {
        assert done + ([outcome.value] + rest.1.value) == (done + [outcome.value]) + rest.1.value;
      }
    }
  }

  lemma DrainNothing(q: QueueState, key: Key, sends: PaymentId -> (seq<Byte>, Network), done: seq<SubmitOutcome>)
    ensures After(done, DrainFrom(q, [], key, sends)) == (q, Ok(done))
  {
    assert done + [] == done;
  }

  lemma NothingDone(rest: Drained)
    ensures After([], rest) == rest
  {
    if rest.1.Ok? {
      assert [] + rest.1.value == rest.1.value;
    }
  }

  lemma {:induction false} IssueAllStep(q: QueueState, entries: seq<QueuedPayment>, k: nat)
    requires k < |entries|
    ensures IssueAll(q, entries[..k + 1]) == Issue(IssueAll(q, entries[..k]), entries[k])
    decreases k
  {
    hide Issue;
    var head := entries[..k + 1];
    if k > 0 {
      IssueAllStep(Issue(q, entries[0]), entries[1..], k - 1);
      assert head[1..] == entries[1..][..k] && entries[..k][1..] == entries[1..][..k - 1]
             && entries[..k][0] == entries[0] == head[0];
    } else {
      assert head == [entries[0]] && head[1..] == [];
      assert IssueAll(q, head) == IssueAll(Issue(q, entries[0]), []);
    }
  }

  lemma {:induction false} HydratedStep(payments: seq<QueuedPayment>, stored: seq<QueuedPayment>, keys: seq<PaymentId>,
                                        k: nat)
    requires k < |keys|
    ensures var before := Hydrated(payments, stored, keys[..k]);
            Hydrated(payments, stored, keys[..k + 1]) ==
            match Lookup(stored, keys[k]) case Some(e) => Put(before, e) case None => before
    decreases k
  {
    hide Put, Lookup;
    var head, found := keys[..k + 1], Lookup(stored, keys[0]);
    var next := if found.Some? then Put(payments, found.value) else payments;
    if k > 0 {
      HydratedStep(next, stored, keys[1..], k - 1);
      assert head[1..] == keys[1..][..k] && keys[..k][1..] == keys[1..][..k - 1] && keys[..k][0] == keys[0] == head[0];
    } else {
      assert head == [keys[0]] && head[1..] == [];
      assert Hydrated(payments, stored, head) == Hydrated(next, stored, []);
    }
  }

  class Queue {
    const limits: Limits
    var payments: seq<QueuedPayment>
    var consecutiveFailedSends: nat
    var stored: seq<QueuedPayment>
    var storedMeta: Option<nat>
    /** What the store was given and has not stored yet. */
    var pending: seq<QueuedPayment>

    function State(): QueueState
      reads this
    {
      QueueState(payments, consecutiveFailedSends, stored, storedMeta, pending)
    }

    /** A queue over a store: empty until `Load`, whatever the store holds. */
    constructor (limits: Limits, stored: seq<QueuedPayment>, storedMeta: Option<nat>)
      ensures this.limits == limits && State() == QueueState([], 0, stored, storedMeta, [])
    {
      this.limits := limits;
      payments, consecutiveFailedSends, pending := [], 0, [];
      this.stored, this.storedMeta := stored, storedMeta;
    }

    /** A save that is not awaited. */
    method IssuePayment(payment: QueuedPayment)
      modifies this
      ensures State() == Issue(old(State()), payment)
    {
      payments := Put(payments, payment);
      pending := pending + [payment];
    }

    /** The store catches up, one write at a time. */
    method Await()
      modifies this
      ensures State() == Flush(old(State()))
    {
      ghost var before := State();
      var k := 0;
      while k < |pending|
        invariant 0 <= k <= |pending| && pending == before.pending
        invariant State() == before.(stored := PutAll(before.stored, before.pending[..k]))
      {
        assert pending[..k + 1][..k] == pending[..k] && pending[..k + 1][k] == pending[k];
        stored := Put(stored, pending[k]);
        k := k + 1;
      }
      assert pending[..k] == pending;
      pending := [];
    }

    method SavePayment(payment: QueuedPayment)
      modifies this
      ensures State() == Save(old(State()), payment)
    {
      IssuePayment(payment);
      Await();
    }

    method SaveMeta()
      modifies this
      ensures State() == QueueModel.SaveMeta(old(State()))
    {
      storedMeta := Some(consecutiveFailedSends);
    }

    method Accept(payment: VerifiedPayment, tier: Tier, amount: int, precheck: Option<NonceVerdict>,
                  now: int) returns (r: Result<QueuedPayment>)
      modifies this
      ensures (State(), r) == QueueModel.Accept(limits, old(State()), payment, tier, amount, precheck, now)
    {
      var id := IdOf(payment);
      if Lookup(payments, id).Some? {
        return Err(WIRE_DUPLICATE_AUTH);
      }
      if tier == T1 && payment.input.nonceRef.Some? && !(precheck.Some? && precheck.value.Passes?) {
        return Err(LIMIT_PRECHECK_REQUIRED);
      }
      if consecutiveFailedSends >= limits.maxConsecutiveFailedSends {
        return Err(LIMIT_FAILED_SENDS);
      }
      if amount > limits.receiptCap(tier) {
        return Err(LIMIT_RECEIPT_CAP);
      }
      var exposed := Exposure(limits, payments);
      if tier != T0 && exposed + amount > limits.queueExposureCap {
        return Err(LIMIT_QUEUE_EXPOSURE);
      }
      var accepted := QueuedPayment(id, payment, tier, now, amount, 0, None, Queued);
      SavePayment(accepted);
      r := Ok(accepted);
    }

    /** `sends` is the signature and the network each payment meets when it is submitted. */
    method Drain(key: Key, sends: PaymentId -> (seq<Byte>, Network)) returns (r: Result<seq<SubmitOutcome>>)
      modifies this
      ensures (State(), r) == DrainFrom(old(State()), Ordered(limits, old(payments)), key, sends)
    {
      hide DrainFrom, Submit.Submit, Save, CountOutcome;
      var snapshot := Ordered(limits, payments);
      ghost var all := DrainFrom(State(), snapshot, key, sends);
      var outcomes: seq<SubmitOutcome> := [];
      NothingDone(all);
      assert snapshot[0..] == snapshot;
      for k := 0 to |snapshot|
        invariant all == After(outcomes, DrainFrom(State(), snapshot[k..], key, sends))
      {
        DrainTurn(State(), snapshot, key, sends, k, outcomes);
        var queued := snapshot[k];
        if !Eligible(queued) {
          continue;
        }
        SavePayment(queued.(state := Submitting));
        var outcome := Submit.Submit(queued.payment, key, sends(queued.id).0, sends(queued.id).1);
        if outcome.Err? {
          return Err(outcome.code);
        }
        outcomes := outcomes + [outcome.value];
        RecordOutcome(queued, outcome.value);
      }
      assert snapshot[|snapshot|..] == [];
      DrainNothing(State(), key, sends, outcomes);
      r := Ok(outcomes);
    }

    /** The end of one turn of the loop. */
    method RecordOutcome(queued: QueuedPayment, outcome: SubmitOutcome)
      modifies this
      ensures State() == CountOutcome(EndAttempt(old(State()), queued, outcome), outcome)
    {
      match outcome {
        case SettledAs(_, _) =>
          SavePayment(queued.(state := Settled, attempts := queued.attempts + 1));
          consecutiveFailedSends := 0;
        case FailedAs(code, _) =>
          SavePayment(queued.(state := Failed, attempts := queued.attempts + 1, lastError := Some(code)));
          if CountsAsFailedSend(code) {
            consecutiveFailedSends := consecutiveFailedSends + 1;
          }
      }
      SaveMeta();
    }

    /** Returns before any of its writes is stored. */
    method Expire(now: int) returns (expired: seq<QueuedPayment>)
      modifies this
      ensures (State(), expired) == QueueModel.Expire(limits, old(State()), now)
    {
      expired := Voidings(limits, Ordered(limits, payments), now);
      ghost var before := State();
      for k := 0 to |expired|
        invariant State() == IssueAll(before, expired[..k])
      {
        IssueAllStep(before, expired, k);
        IssuePayment(expired[k]);
      }
      assert expired[..|expired|] == expired;
    }

    /** `keys` is how the store lists them. */
    method Load(keys: seq<PaymentId>) returns (list: seq<QueuedPayment>)
      modifies this
      ensures State() == QueueModel.Load(old(State()), keys) && list == Ordered(limits, payments)
    {
      Await();
      ghost var before := State();
      for k := 0 to |keys|
        invariant State() == before.(payments := Hydrated(before.payments, before.stored, keys[..k]))
      {
        HydratedStep(before.payments, stored, keys, k);
        var found := Lookup(stored, keys[k]);
        if found.Some? {
          payments := Put(payments, found.value);
        }
      }
      assert keys[..|keys|] == keys;
      consecutiveFailedSends := MetaCounter(storedMeta);
      list := Ordered(limits, payments);
    }
  }
}
