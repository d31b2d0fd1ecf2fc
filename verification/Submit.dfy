/**
  Submission: what one attempt to send a payment is called, decided by the chain and never by the
  shape of an error.  The network's answers are given; a missing answer is a call that failed.
 */
module Submit {
  import opened Common
  import opened Types
  import opened Canonical
  import opened Sign
  import opened NonceCheck

  datatype SignatureOutcome = LandedOk | LandedFailed | NotSeen

  /** What the text of an error suggests; the matching itself is outside. */
  datatype Hint = NoHint | AlreadyProcessed | ExecutionFailed | Expired | Transport

  datatype Send = Confirmed | Threw(hint: Hint)

  /** The network during one attempt, in the order it is asked. */
  datatype Network = Network(
    send: Send,
    accountAfterSend: Option<NonceAccountState>,
    readHint: Hint,
    lookup: Option<SignatureOutcome>,
    accountAfterLookup: Option<NonceAccountState>,
    accountAtCheck: Option<NonceAccountState>)

  datatype SubmitOutcome =
    | SettledAs(signature: seq<Byte>, newNonceValue: Option<Key>)
    | FailedAs(code: ErrorCode, feeCharged: bool)

  function CodeFromError(hint: Hint): (r: Option<ErrorCode>) {
    match hint
    case NoHint => None
    case AlreadyProcessed => Some(SUBMIT_ALREADY_PROCESSED)
    case ExecutionFailed => Some(SUBMIT_EXECUTION_FAILED)
    case Expired => Some(SUBMIT_BLOCKHASH_EXPIRED)
    case Transport => Some(SUBMIT_RPC_UNAVAILABLE)
  }

  /** The slot's value after settlement, which is what a nonce return carries. */
  function NewNonceValueOf(payment: VerifiedPayment, account: Option<NonceAccountState>): (r: Result<Option<Key>>) {
    if payment.input.nonceRef.None? then Ok(None)
    else if NonceSeed(payment.input.nonceRef.value.index).Err? then Err(NONCE_INDEX_OUT_OF_RANGE)
    else
      match account
      case None => Err(FOREIGN_EXCEPTION)
      case Some(Initialized(_, value, _)) => Ok(Some(value))
      case Some(_) => Ok(None)
  }

  /** The error `submit` throws before it sends anything. */
  function Unsendable(payment: VerifiedPayment, feePayerKey: Key): (r: Option<ErrorCode>) {
    var nonceRef := payment.input.nonceRef;
    if payment.input.intent.lifetime.DurableNonce? && nonceRef.None? then Some(INTERNAL_NOT_APPLICABLE)
    else if payment.input.intent.lifetime.DurableNonce?
      && NonceSeed(nonceRef.value.index).Err? then Some(NONCE_INDEX_OUT_OF_RANGE)
    else if feePayerKey != payment.input.intent.feePayer then Some(SIG_FEE_PAYER_MISSING)
    else if |payment.auth.signature| != SIGNATURE_BYTES then Some(SIG_LENGTH)
    else None
  }

  /** Nothing landed, so nothing was charged: which free failure was it? */
  function FreeFailure(payment: VerifiedPayment, hint: Hint, net: Network): (r: Result<SubmitOutcome>) {
    var code := match CodeFromError(hint) case Some(c) => c case None => SUBMIT_RPC_UNAVAILABLE;
    if CodeFromError(hint) == Some(SUBMIT_ALREADY_PROCESSED) then Ok(FailedAs(SUBMIT_ALREADY_PROCESSED, false))
    else if payment.input.intent.lifetime.Fresh? then Ok(FailedAs(code, false))
    else if net.accountAtCheck.None? then Err(FOREIGN_EXCEPTION)
    else
      var verdict := PrecheckNonce(payment.input, net.accountAtCheck.value);
      if verdict.Err? then Err(verdict.code)
      else
        match verdict.value
        case Passes(_) => Ok(FailedAs(code, false))
        case Stale(_) => Ok(FailedAs(SUBMIT_NONCE_STALE, false))
        case _ => Ok(FailedAs(SUBMIT_NONCE_ABSENT, false))
  }

  /** One attempt.  `signature` is the transaction's, known before it is sent. */
  function Submit(payment: VerifiedPayment, feePayerKey: Key, signature: seq<Byte>,
                  net: Network): (r: Result<SubmitOutcome>) {
    var unsendable := Unsendable(payment, feePayerKey);
    if unsendable.Some? then Err(unsendable.value)
    else
      var first := NewNonceValueOf(payment, net.accountAfterSend);
      if net.send.Confirmed? && first.Ok? then Ok(SettledAs(signature, first.value))
      else
        match net.lookup
        case None => Err(FOREIGN_EXCEPTION)
        case Some(LandedOk) =>
          var value := NewNonceValueOf(payment, net.accountAfterLookup);
          if value.Err? then Err(value.code) else Ok(SettledAs(signature, value.value))
        case Some(LandedFailed) => Ok(FailedAs(SUBMIT_EXECUTION_FAILED, true))
        case Some(NotSeen) => FreeFailure(payment, if net.send.Confirmed? then net.readHint else net.send.hint, net)
  }

  /**
    The answers are true of a transaction that ends as `status`: a confirmed send landed, a lookup
    tells how it ended, and nothing lands after a lookup has not seen it.
   */
  predicate Truthful(net: Network, status: SignatureOutcome) {
    (net.send.Confirmed? ==> status == LandedOk) && (net.lookup.Some? ==> net.lookup.value == status)
  }

  /**
    The chain alone decides the outcome: an attempt is settled exactly when its transaction landed and
    succeeded, charged a fee as a failure exactly when it landed and failed, and free exactly when it
    never landed — whatever the error said.
   */
  lemma OutcomeIsWhatTheChainDid(payment: VerifiedPayment, key: Key, signature: seq<Byte>, net: Network,
                                 status: SignatureOutcome)
    requires Truthful(net, status) && Submit(payment, key, signature, net).Ok?
    ensures var outcome := Submit(payment, key, signature, net).value;
            && (outcome.SettledAs? <==> status == LandedOk)
            && (outcome.FailedAs? && outcome.feeCharged <==> status == LandedFailed)
            && (outcome.FailedAs? && !outcome.feeCharged <==> status == NotSeen)
            && (outcome.SettledAs? ==> outcome.signature == signature)
  {
  }

  /** The failure of an attempt that was looked up and found not to have landed: its own, or its read-back's. */
  function FailureOf(net: Network): Hint {
    if net.send.Confirmed? then net.readHint else net.send.hint
  }

  /** The attempt came down to the nonce account: nothing landed, and the error did not claim that it had. */
  predicate AsksTheAccount(payment: VerifiedPayment, net: Network) {
    && !(net.send.Confirmed? && NewNonceValueOf(payment, net.accountAfterSend).Ok?)
    && net.lookup == Some(NotSeen) && !FailureOf(net).AlreadyProcessed?
  }

  /**
    When the two nonce failures are told.  On the nonce path an attempt is called stale exactly when it
    comes down to the account and that is the payer's and holds another value, and absent exactly when it
    comes down to the account and there is none of the payer's.  Only an error claiming that the
    transaction was processed keeps the account from being asked, and so hides both.
   */
  lemma NonceFailuresAreTold(payment: VerifiedPayment, key: Key, signature: seq<Byte>, net: Network)
    requires Submit(payment, key, signature, net).Ok? && payment.input.intent.lifetime.DurableNonce?
    ensures payment.input.nonceRef.Some? && (AsksTheAccount(payment, net) ==> net.accountAtCheck.Some?)
    ensures var outcome, claimed := Submit(payment, key, signature, net).value, payment.input.nonceRef.value.value;
            && (outcome.FailedAs? && outcome.code == SUBMIT_NONCE_STALE <==>
                AsksTheAccount(payment, net) && IsPayers(net.accountAtCheck.value, payment.input.payer)
                && net.accountAtCheck.value.value != claimed)
            && (outcome.FailedAs? && outcome.code == SUBMIT_NONCE_ABSENT <==>
                AsksTheAccount(payment, net) && !IsPayers(net.accountAtCheck.value, payment.input.payer))
            && (outcome.FailedAs? && outcome.code == SUBMIT_ALREADY_PROCESSED <==>
                net.lookup == Some(NotSeen) && FailureOf(net).AlreadyProcessed?
                  && !(net.send.Confirmed? && NewNonceValueOf(payment, net.accountAfterSend).Ok?))
  {
  }

  predicate IsPayers(account: NonceAccountState, payer: Key) {
    account.Initialized? && account.authority == payer
  }

  /**
    What every failure is called.  One that landed failed in execution.  One that did not is what the account
    says, on the nonce path and unless the error claims that the transaction was processed; and where the
    account has nothing to say it is what the error says, or that the network could not be reached.
   */
  lemma WhatAFailureIsCalled(payment: VerifiedPayment, key: Key, signature: seq<Byte>, net: Network)
    requires Submit(payment, key, signature, net).Ok? && Submit(payment, key, signature, net).value.FailedAs?
    ensures net.lookup.Some?
    ensures var onNonce, account := payment.input.intent.lifetime == DurableNonce, net.accountAtCheck;
            var asks := onNonce && FailureOf(net) != AlreadyProcessed;
            && (asks && net.lookup == Some(NotSeen) ==> account.Some? && payment.input.nonceRef.Some?)
            && Submit(payment, key, signature, net).value.code ==
               if net.lookup == Some(LandedFailed) then SUBMIT_EXECUTION_FAILED
               else if asks && !IsPayers(account.value, payment.input.payer) then SUBMIT_NONCE_ABSENT
               else if asks && account.value.value != payment.input.nonceRef.value.value then SUBMIT_NONCE_STALE
               else match FailureOf(net)
                    case AlreadyProcessed => SUBMIT_ALREADY_PROCESSED
                    case ExecutionFailed => SUBMIT_EXECUTION_FAILED
                    case Expired => SUBMIT_BLOCKHASH_EXPIRED
                    case Transport => SUBMIT_RPC_UNAVAILABLE
                    case NoHint => SUBMIT_RPC_UNAVAILABLE
  {
  }

  /**
    What is never sent: a nonce payment without its slot, a key that is not the fee payer's, a signature of
    another length.
   */
  lemma WhenNothingIsSent(payment: VerifiedPayment, key: Key)
    ensures var r, input := Unsendable(payment, key), payment.input;
            var placed := input.intent.lifetime == DurableNonce ==> input.nonceRef != None;
            var inRange := input.intent.lifetime == DurableNonce && input.nonceRef != None ==>
                             0 <= input.nonceRef.value.index <= 255;
            r == if !placed then Some(INTERNAL_NOT_APPLICABLE)
                 else if !inRange then Some(NONCE_INDEX_OUT_OF_RANGE)
                 else if key != input.intent.feePayer then Some(SIG_FEE_PAYER_MISSING)
                 else if |payment.auth.signature| != 64 then Some(SIG_LENGTH)
                 else None
  {
  }

  /**
    An attempt throws, leaving the payment undecided, exactly when it cannot be sent or an answer it needs
    never came.
   */
  lemma WhenSubmitThrows(payment: VerifiedPayment, key: Key, signature: seq<Byte>, net: Network)
    requires Unsendable(payment, key).None?
    requires payment.input.nonceRef.Some? ==> 0 <= payment.input.nonceRef.value.index <= 255
    requires payment.input.nonceRef.Some? == payment.input.intent.lifetime.DurableNonce?
    ensures var onNonce := payment.input.nonceRef.Some?;
            var sure := net.send.Confirmed? && (onNonce ==> net.accountAfterSend.Some?);
            var hint := if net.send.Confirmed? then net.readHint else net.send.hint;
            Submit(payment, key, signature, net).Err? <==>
            && !sure
            && (|| net.lookup.None?
                || (net.lookup.value == LandedOk && onNonce && net.accountAfterLookup.None?)
                || (net.lookup.value == NotSeen && onNonce && !hint.AlreadyProcessed? && net.accountAtCheck.None?))
    ensures Submit(payment, key, signature, net).Err? ==> Submit(payment, key, signature, net).code == FOREIGN_EXCEPTION
  {
  }

  /** What cannot be sent throws as just that, whatever the network would say. */
  lemma NothingSentIsThrown(payment: VerifiedPayment, key: Key, signature: seq<Byte>, net: Network)
    requires Unsendable(payment, key).Some?
    ensures Submit(payment, key, signature, net) == Err(Unsendable(payment, key).value)
  {
  }

  /**
    What a settled attempt tells the merchant to sign into a return: on the nonce path the value the
    payer's account was read to hold after the landing, nothing when it could not be read as one, and
    nothing at all on the fresh path.
   */
  lemma SettledCarriesTheValueRead(payment: VerifiedPayment, key: Key, signature: seq<Byte>, net: Network)
    requires Submit(payment, key, signature, net).Ok? && Submit(payment, key, signature, net).value.SettledAs?
    ensures var value := Submit(payment, key, signature, net).value.newNonceValue;
            var read := if net.send.Confirmed?
              && net.accountAfterSend.Some? then net.accountAfterSend else net.accountAfterLookup;
            && (payment.input.nonceRef.None? ==> value.None?)
            && (payment.input.nonceRef.Some? ==>
                  && read.Some? && (value.Some? <==> read.value.Initialized?)
                  && (value.Some? ==> value.value == read.value.value))
  {
  }
}
