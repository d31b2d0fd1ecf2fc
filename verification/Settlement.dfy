/**
  Settlement joins the two sides again: what a merchant learns from a submission against what the
  payer's account really did, and what that makes of the payer's pool.
 */
module Settlement {
  import opened Common
  import opened Types
  import opened Signatures
  import opened Sign
  import opened NonceCheck
  import opened NonceReturn
  import opened Submit
  import opened PoolModel
  import opened PoolWorld
  import opened PoolSafety
  import opened PoolOutstanding
  import Queue = QueueModel

  // --- before handing over -------------------------------------------------------------------------

  /**
    The T1 tier hands over on a check of the account.  A payment the queue does not refuse on a check of
    the payer's account as it is has its value on chain at that moment, and nothing signed against that
    value has landed.
   */
  lemma T1AcceptanceMeansUnspent(cfg: Config, worlds: seq<World>, steps: seq<Step>, payment: VerifiedPayment,
                                 account: NonceAccountState, limits: Queue.Limits, q: Queue.QueueState, amount: int)
    requires IsRun(cfg, worlds, steps) && payment.input.payer == cfg.payer && payment.input.nonceRef.Some?
    requires payment.input.nonceRef.value.index >= 0
    requires AccountNow(cfg, worlds[|steps|], payment.input.nonceRef.value.index, account)
    requires PrecheckNonce(payment.input, account).Ok?
    requires var verdict := PrecheckNonce(payment.input, account).value;
             Queue.Refusal(limits, q, payment, Queue.T1, amount, Some(verdict)).None?
    ensures var w, claimed := worlds[|steps|], payment.input.nonceRef.value;
            && Holds(w, claimed.index) == Some(claimed.value)
            && forall k :: 0 <= k < |w.payments| && Against(w.payments[k], claimed.index, claimed.value)
                           ==> !w.payments[k].landed
  {
    hide IsRun, Queue.Exposure, Queue.Lookup;
    var claimed := payment.input.nonceRef.value;
    PassingMeansUnspent(cfg, worlds, steps, |steps|, claimed.index, claimed.value, account);
  }

  // --- after settling ------------------------------------------------------------------------------

  function ValueIn(account: NonceAccountState): Option<Key> {
    match account case Initialized(_, value, _) => Some(value) case _ => None
  }

  /** The account was in this state at a moment after a payment against `value` had landed. */
  ghost predicate SeenAfterLanding(w: World, i: nat, value: Key, account: NonceAccountState) {
    exists a, k :: HeldAt(w, i, value, a) && a < k < |w.lines(i)| && w.lines(i)[k] == ValueIn(account)
  }

  /** An account read back after its payment landed was read as it then was, at that moment or a later one. */
  ghost predicate TruthfulReads(w: World, i: nat, value: Key, net: Network) {
    && (net.send.Confirmed? && net.accountAfterSend.Some? ==> SeenAfterLanding(w, i, value, net.accountAfterSend.value))
    && (net.lookup == Some(LandedOk) && net.accountAfterLookup.Some?
        ==> SeenAfterLanding(w, i, value, net.accountAfterLookup.value))
  }

  /** The return the merchant signs for a settled payment. */
  function ReturnFor(payment: VerifiedPayment, next: Key): NonceReturnStatement
    requires payment.input.nonceRef.Some?
  {
    var nonceRef := payment.input.nonceRef.value;
    NonceReturnStatement(payment.input.payer, nonceRef.index, nonceRef.value, next)
  }

  /** The attempt settled the payment and read `next` back. */
  predicate SettledWith(payment: VerifiedPayment, key: Key, signature: seq<Byte>, net: Network, next: Key) {
    var r := Submit.Submit(payment, key, signature, net);
    r.Ok? && r.value.SettledAs? && r.value.newNonceValue == Some(next)
  }

  lemma WhyItSettled(payment: VerifiedPayment, key: Key, signature: seq<Byte>, net: Network, next: Key)
    requires SettledWith(payment, key, signature, net, next)
    ensures payment.input.nonceRef.Some? && 0 <= payment.input.nonceRef.value.index <= 255
    ensures if net.send.Confirmed? && net.accountAfterSend.Some? then ValueIn(net.accountAfterSend.value) == Some(next)
            else net.lookup == Some(LandedOk) && net.accountAfterLookup.Some?
                 && ValueIn(net.accountAfterLookup.value) == Some(next)
  {
    SettledCarriesTheValueRead(payment, key, signature, net);
  }

  /**
    The value a settled attempt brings back is a real advance of the payer's account past the spent
    value, so a merchant who signs what submission gave signs only real advances.
   */
  lemma SettledValueIsARealAdvance(cfg: Config, w: World, payment: VerifiedPayment, key: Key, signature: seq<Byte>,
                                   net: Network, next: Key)
    requires SettledWith(payment, key, signature, net, next) && payment.input.nonceRef.Some?
             && payment.input.nonceRef.value.index >= 0
    requires var nonceRef := payment.input.nonceRef.value;
             NeverRepeats(w.lines(nonceRef.index)) && TruthfulReads(w, nonceRef.index, nonceRef.value, net)
    ensures ReturnFor(payment, next) in RealAdvances(cfg, w) && next != payment.input.nonceRef.value.value
  {
    WhyItSettled(payment, key, signature, net, next);
    hide SettledWith;
    var nonceRef := payment.input.nonceRef.value;
    var confirmed := net.send.Confirmed? && net.accountAfterSend.Some?;
    var account := if confirmed then net.accountAfterSend.value else net.accountAfterLookup.value;
    assert SeenAfterLanding(w, nonceRef.index, nonceRef.value, account);
    var a, k :| HeldAt(w, nonceRef.index, nonceRef.value, a) && a < k < |w.lines(nonceRef.index)|
                && w.lines(nonceRef.index)[k] == ValueIn(account);
    assert Advanced(w, nonceRef.index, nonceRef.value, next);
  }

  /**
    From settlement back to the pool: the merchant signs the value submission brought back, and a payer
    whose ledger recorded that merchant and the spent value gets its slot back on the new one.  Such a
    return is never false.
   */
  lemma SettledReturnRearms(cfg: Config, w: World, payment: VerifiedPayment, key: Key, signature: seq<Byte>,
                            net: Network, next: Key,
                            k: nat, signed: set<Signed>, returned: seq<Byte>, write: Write)
    requires SettledWith(payment, key, signature, net, next) && payment.input.payer == cfg.payer
    requires payment.input.nonceRef.Some? && 0 <= payment.input.nonceRef.value.index <= 255
    requires var nonceRef := payment.input.nonceRef.value;
             NeverRepeats(w.lines(nonceRef.index)) && TruthfulReads(w, nonceRef.index, nonceRef.value, net)
    requires Loaded(w.device).Some? && Find(Loaded(w.device).value.slots, payment.input.nonceRef.value.index) == Some(k)
    requires var slot := Loaded(w.device).value.slots[k];
             && Reconcilable(slot) && slot.spentAgainst.value.value == payment.input.nonceRef.value.value
                && |returned| == SIGNATURE_BYTES
             && Signed(slot.spentAgainst.value.merchant, Return(StatementBytes(ReturnFor(payment, next))),
                       returned) in signed
    ensures var state, payload := Loaded(w.device).value,
            NonceReturnPayload(payment.input.nonceRef.value.index, next, returned);
            && ApplyReturn(cfg, state, payload, signed) == Ok(WithSlot(state, Rearmed(state.slots[k], Some(next))))
            && !FalseReturn(cfg, w, OnLedger(NonceReturned(payload, signed, write)), payload.nonceIndex)
  {
    SettledValueIsARealAdvance(cfg, w, payment, key, signature, net, next);
    hide SettledWith, StatementBytes, TruthfulReads, NeverRepeats;
    GenuineReturnIsAccepted(signed, ReturnFor(payment, next),
                            Loaded(w.device).value.slots[k].spentAgainst.value.merchant, returned);
  }

  /**
    An honest payer is never blamed: while its payment is young and its account open, an attempt that
    asks the account is called neither stale nor absent.
   */
  lemma YoungPaymentsAreNotStale(cfg: Config, worlds: seq<World>, steps: seq<Step>, k: nat, payment: VerifiedPayment,
                                 key: Key, signature: seq<Byte>, net: Network)
    requires TimelyRun(cfg, worlds, steps) && k < |worlds[|steps|].payments|
             && Outstanding(cfg, worlds[|steps|], worlds[|steps|].payments[k])
    requires var w := worlds[|steps|]; var p := w.payments[k];
             && p.index !in w.misled && !ClosedAt(w, p.index, p.value)
             && payment.input.payer == cfg.payer && payment.input.nonceRef == Some(NonceRef(p.index, p.value))
             && (net.accountAtCheck.Some? ==> AccountNow(cfg, w, p.index, net.accountAtCheck.value))
    requires payment.input.intent.lifetime.DurableNonce? && Submit.Submit(payment, key, signature, net).Ok?
    ensures var outcome := Submit.Submit(payment, key, signature, net).value;
            outcome.FailedAs? ==> outcome.code != SUBMIT_NONCE_STALE && outcome.code != SUBMIT_NONCE_ABSENT
  {
    hide TimelyRun, Submit.Submit, Outstanding, ClosedAt;
    NonceFailuresAreTold(payment, key, signature, net);
    if AsksTheAccount(payment, net) {
      OutstandingPaymentsStayGood(cfg, worlds, steps, k, net.accountAtCheck.value);
    }
  }
}
