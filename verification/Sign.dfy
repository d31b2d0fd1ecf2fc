/**
  Offline signing and verification.  Signatures are ideal: the set of every signature produced so far
  is part of the state, and one verifies exactly when its key produced it over that statement.
 */
module Signatures {
  import opened Common
  import opened Canonical

  datatype Statement = Payment(message: Message) | Return(bytes: seq<Byte>)

  datatype Signed = Signed(key: Key, statement: Statement, signature: seq<Byte>)

  predicate Verifies(signed: set<Signed>, key: Key, statement: Statement, signature: seq<Byte>) {
    Signed(key, statement, signature) in signed
  }
}

module Sign {
  import opened Common
  import opened Types
  import opened Canonical
  import opened Signatures
  import Validate

  datatype VerifiedPayment = VerifiedPayment(input: CanonicalInput, message: Message, auth: Auth)

  /** Payer side.  `signature` is what `key` produces over the message; it joins the signatures made. */
  function SignAsPayer(signed: set<Signed>, input: CanonicalInput, key: Key,
                       signature: seq<Byte>): (r: Result<(Auth, set<Signed>)>)
  {
    if input.intent.feePayer == input.payer then Err(WIRE_FEE_PAYER_IS_PAYER)
    else if input.intent.isStatic != input.intent.amount.None? then Err(CANON_AMOUNT_MISMATCH)
    else if key != input.payer then Err(CANON_ACCOUNT_MISMATCH)
    else
      var message := BuildMessage(input);
      if message.Err? then Err(message.code)
      else
        var canonical := Validate.AssertCanonical(message.value, input);
        if canonical.Err? then Err(canonical.code)
        else
          Ok((Auth(input.payer, input.nonceRef, if input.intent.isStatic then Some(input.amount) else None, signature),
              signed + {Signed(key, Payment(message.value), signature)}))
  }

  function ResolveAmount(intent: Intent, auth: Auth, expectedAmount: Option<int>): (r: Result<int>) {
    if intent.isStatic then
      if expectedAmount.None? || auth.amount.None? || auth.amount != expectedAmount then Err(CANON_AMOUNT_MISMATCH)
      else Ok(auth.amount.value)
    else if intent.amount.None? then Err(CANON_AMOUNT_MISMATCH)
    else if auth.amount.Some? then Err(CANON_AMOUNT_MISMATCH)
    else if expectedAmount.Some? && expectedAmount != intent.amount then Err(CANON_AMOUNT_MISMATCH)
    else Ok(intent.amount.value)
  }

  /** Merchant side: rebuild the message from the intent and the AUTH, and verify against that. */
  function VerifyAuth(signed: set<Signed>, intent: Intent, auth: Auth,
                      expectedAmount: Option<int>): (r: Result<VerifiedPayment>) {
    if |auth.signature| != SIGNATURE_BYTES then Err(SIG_LENGTH)
    else if intent.feePayer == auth.payer then Err(WIRE_FEE_PAYER_IS_PAYER)
    else
      var amount := ResolveAmount(intent, auth, expectedAmount);
      if amount.Err? then Err(amount.code)
      else
        var input := CanonicalInput(intent, auth.payer, auth.nonceRef, amount.value);
        var message := BuildMessage(input);
        if message.Err? then Err(message.code)
        else if !Verifies(signed, auth.payer, Payment(message.value), auth.signature) then Err(SIG_INVALID)
        else Ok(VerifiedPayment(input, message.value, auth))
  }

  // --- what is signed, and what is refused ---------------------------------------------------------

  /**
    A payer's device signs exactly what it can build, for a merchant other than itself and with its own key;
    and then it signs that message and nothing else, and the AUTH names the amount only where the intent does
    not.
   */
  lemma WhatIsSigned(signed: set<Signed>, input: CanonicalInput, key: Key, signature: seq<Byte>)
    ensures var r, intent := SignAsPayer(signed, input, key, signature), input.intent;
            && (r.Ok? <==>
                && intent.feePayer != input.payer && intent.isStatic == intent.amount.None? && key == input.payer
                && BuildMessage(input).Ok?)
            && (r.Ok? ==>
                  && r.value.0 == Auth(input.payer, input.nonceRef,
                                       if intent.amount.None? then Some(input.amount) else None, signature)
                  && r.value.1 == signed + {Signed(input.payer, Payment(BuildMessage(input).value), signature)})
  {
  }

  /** The first thing wrong is what signing is refused for. */
  lemma WhySigningIsRefused(signed: set<Signed>, input: CanonicalInput, key: Key, signature: seq<Byte>)
    ensures var r, intent := SignAsPayer(signed, input, key, signature), input.intent;
            r.Err? ==>
              r.code == if intent.feePayer == input.payer then WIRE_FEE_PAYER_IS_PAYER
                        else if intent.isStatic != intent.amount.None? then CANON_AMOUNT_MISMATCH
                        else if key != input.payer then CANON_ACCOUNT_MISMATCH
                        else if BuildMessage(input).Err? then BuildMessage(input).code else r.code
  {
  }

  /** The amount a merchant settles on: the intent's, or where that is open the AUTH's, and as expected either way. */
  lemma WhichAmount(intent: Intent, auth: Auth, expected: Option<int>)
    ensures var r := ResolveAmount(intent, auth, expected);
            && (r.Ok? <==>
                if intent.isStatic then expected != None && auth.amount == expected
                else intent.amount != None && auth.amount == None && expected in {None, intent.amount})
            && (r.Ok? ==> r.value == if intent.isStatic then auth.amount.value else intent.amount.value)
            && (r.Err? ==> r.code == CANON_AMOUNT_MISMATCH)
  {
  }

  /** A merchant accepts an AUTH exactly when the payer's key made its signature over the message rebuilt from it. */
  lemma WhatIsAccepted(signed: set<Signed>, intent: Intent, auth: Auth, expected: Option<int>)
    ensures var r, amount := VerifyAuth(signed, intent, auth, expected), ResolveAmount(intent, auth, expected);
            && (r.Ok? <==>
                && |auth.signature| == 64 && intent.feePayer != auth.payer && amount.Ok?
                && var rebuilt := BuildMessage(CanonicalInput(intent, auth.payer, auth.nonceRef, amount.value));
                && rebuilt.Ok? && Signed(auth.payer, Payment(rebuilt.value), auth.signature) in signed)
            && (r.Ok? ==>
                  && r.value.input == CanonicalInput(intent, auth.payer, auth.nonceRef, amount.value)
                  && r.value.auth == auth && Ok(r.value.message) == BuildMessage(r.value.input))
            && (r.Err? ==>
                  r.code == if |auth.signature| != 64 then SIG_LENGTH
                            else if intent.feePayer == auth.payer then WIRE_FEE_PAYER_IS_PAYER
                            else if amount.Err? then CANON_AMOUNT_MISMATCH
                            else match BuildMessage(CanonicalInput(intent, auth.payer, auth.nonceRef, amount.value))
                                 case Err(code) => code case Ok(_) => SIG_INVALID)
  {
    hide BuildMessage;
  }
}

/** Both sides, over the wire: what a payer means is what a merchant accepts. */
module Agreement {
  import opened Common
  import opened Types
  import opened Canonical
  import opened Signatures
  import opened Sign
  import opened Codec
  import Rfc9285
  import Laws = CodecLaws

  function Scan(bytes: seq<Byte>): Result<seq<Byte>> {
    match Rfc9285.Decode(Rfc9285.Encode(bytes)) case Some(b) => Ok(b) case None => Err(WIRE_BASE45_INVALID)
  }

  function EncodedIntent(intent: Intent): Result<seq<Byte>> {
    if intent.isStatic then StaticIntentBytes(intent) else IntentBytes(intent)
  }

  function ScannedIntent(intent: Intent, payerCache: map<Key, MintRecord>): (r: Result<Intent>)
  {
    var bytes := EncodedIntent(intent);
    if bytes.Err? then Err(bytes.code)
    else
      var scanned := Scan(bytes.value);
      if scanned.Err? then Err(scanned.code)
      else if intent.isStatic then DecodeStaticIntent(scanned.value, DecodeContext(payerCache, None))
      else DecodeIntent(scanned.value, DecodeContext(payerCache, None))
  }

  /** Encoded under the flags of the intent the payer saw, decoded under those of the intent the merchant issued. */
  function ScannedAuth(auth: Auth, seen: WireFlags, issued: WireFlags, merchantCache: map<Key,
                       MintRecord>): (r: Result<Auth>) {
    var bytes := AuthBytes(auth, seen);
    if bytes.Err? then Err(bytes.code)
    else
      var scanned := Scan(bytes.value);
      if scanned.Err? then Err(scanned.code)
      else DecodeAuth(scanned.value, DecodeContext(merchantCache, Some(issued)))
  }

  /** What the payer is asked to pay, from which slot, and what its key makes of it. */
  datatype Payer = Payer(key: Key, cache: map<Key, MintRecord>, nonceRef: Option<NonceRef>, amount: int,
                         signature: seq<Byte>)

  function PayerInput(payer: Payer, intent: Intent): CanonicalInput {
    CanonicalInput(intent, payer.key, payer.nonceRef, payer.amount)
  }

  /**
    Intent to QR to payer to QR to merchant: encode, base45, decode, sign, encode, base45, decode,
    verify.  Each device takes the AUTH's flags from its own view of the intent.
   */
  function Journey(signed: set<Signed>, intent: Intent, payer: Payer, merchantCache: map<Key, MintRecord>,
                   expected: Option<int>): (r: Result<VerifiedPayment>)
  {
    var seen := ScannedIntent(intent, payer.cache);
    if seen.Err? then Err(seen.code)
    else
      var auth := SignAsPayer(signed, PayerInput(payer, seen.value), payer.key, payer.signature);
      if auth.Err? then Err(auth.code)
      else
        var received := ScannedAuth(auth.value.0, FlagsOf(seen.value), FlagsOf(intent), merchantCache);
        if received.Err? then Err(received.code)
        else VerifyAuth(auth.value.1, intent, received.value, expected)
  }

  /** What the two devices can know beforehand. */
  predicate Legal(intent: Intent, payer: Payer, expected: Option<int>) {
    && intent.feePayer == intent.merchant != payer.key
    && 0 <= intent.decimals <= 255
    && Laws.CacheAgrees(intent, payer.cache)
    && intent.isStatic == intent.amount.None?
    && (intent.isStatic ==> intent.lifetime.DurableNonce? && expected == Some(payer.amount))
    && (!intent.isStatic ==> intent.amount == Some(payer.amount) && (expected.Some? ==> expected == intent.amount))
    && 0 <= payer.amount <= U64_MAX
    && intent.lifetime.DurableNonce? == payer.nonceRef.Some?
    && (payer.nonceRef.Some? ==> 0 <= payer.nonceRef.value.index <= 255)
    && |payer.signature| == SIGNATURE_BYTES
  }

  lemma ScanIsIdentity(bytes: seq<Byte>)
    ensures Scan(bytes) == Ok(bytes)
  {
    Rfc9285.DecodeAfterEncode(bytes);
  }

  lemma IntentArrives(intent: Intent, payerCache: map<Key, MintRecord>)
    requires EncodedIntent(intent).Ok?
    ensures ScannedIntent(intent, payerCache) == Ok(WithoutBlockHeight(intent))
            <==> 0 <= intent.decimals <= 255 && Laws.CacheAgrees(intent, payerCache)
    ensures 0 <= intent.decimals <= 255 ==>
              (ScannedIntent(intent, payerCache).Ok? <==> Laws.CacheAgrees(intent, payerCache))
  {
    ScanIsIdentity(EncodedIntent(intent).value);
    if intent.isStatic {
      Laws.StaticIntentRoundTrip(intent, DecodeContext(payerCache, None));
    } else {
      Laws.IntentRoundTrip(intent, DecodeContext(payerCache, None));
    }
  }

  lemma AuthArrives(auth: Auth, seen: WireFlags, issued: WireFlags, merchantCache: map<Key, MintRecord>)
    requires AuthBytes(auth, seen).Ok?
    ensures ScannedAuth(auth, seen, issued, merchantCache) == Ok(auth) <==> seen == issued
  {
    ScanIsIdentity(AuthBytes(auth, seen).value);
    Laws.AuthRoundTrip(auth, seen, DecodeContext(merchantCache, Some(issued)));
  }

  /**
    Every legal payment goes through, and the merchant ends with the payer's own canonical input up
    to the block height.
   */
  lemma LegalPaymentsAreAccepted(signed: set<Signed>, intent: Intent, payer: Payer, merchantCache: map<Key,
                                 MintRecord>, expected: Option<int>)
    requires Legal(intent, payer, expected)
    ensures Journey(signed, intent, payer, merchantCache, expected).Ok?
    ensures var accepted := Journey(signed, intent, payer, merchantCache, expected).value;
            && accepted.input == PayerInput(payer, intent)
            && BuildMessage(PayerInput(payer, WithoutBlockHeight(intent))) == Ok(accepted.message)
            && accepted.auth.signature == payer.signature
  {
    hide StaticIntentBytes, IntentBytes, DecodeIntent, DecodeStaticIntent, DecodeAuth, U64Bytes;
    assert EncodedIntent(intent).Ok? by {
      EncodableIntent(intent, payer, expected);
    }
    IntentArrives(intent, payer.cache);
    var seen := WithoutBlockHeight(intent);
    var input := PayerInput(payer, seen);
    MessageDeterminesInput(input, PayerInput(payer, intent));
    var auth := SignAsPayer(signed, input, payer.key, payer.signature).value;
    AuthArrives(auth.0, FlagsOf(seen), FlagsOf(intent), merchantCache);
  }

  lemma EncodableIntent(intent: Intent, payer: Payer, expected: Option<int>)
    requires Legal(intent, payer, expected)
    ensures EncodedIntent(intent).Ok?
  {
  }

  /** What an intent that can be shown says of itself. */
  lemma EncodedMeans(intent: Intent)
    requires EncodedIntent(intent).Ok?
    ensures intent.feePayer == intent.merchant && intent.isStatic == intent.amount.None?
    ensures intent.isStatic ==> intent.lifetime.DurableNonce?
  {
  }

  /** What goes through was legal, so the two devices could know beforehand: nothing else is ever accepted. */
  lemma OnlyLegalPaymentsAreAccepted(signed: set<Signed>, intent: Intent, payer: Payer, merchantCache: map<Key,
                                     MintRecord>, expected: Option<int>)
    requires Journey(signed, intent, payer, merchantCache, expected).Ok?
    ensures Legal(intent, payer, expected)
  {
    hide StaticIntentBytes, IntentBytes, DecodeIntent, DecodeStaticIntent, DecodeAuth, BuildMessage, AuthBytes,
         EncodedIntent, SignAsPayer, VerifyAuth;
    EncodedMeans(intent);
    var seen := ScannedIntent(intent, payer.cache).value;
    var made := SignAsPayer(signed, PayerInput(payer, seen), payer.key, payer.signature).value;
    var received := ScannedAuth(made.0, FlagsOf(seen), FlagsOf(intent), merchantCache).value;
    WhatIsAccepted(made.1, intent, received, expected);
    WhichAmount(intent, received, expected);
    WhenBuildRefuses(CanonicalInput(intent, received.payer, received.nonceRef,
                                    ResolveAmount(intent, received, expected).value));
    IntentArrives(intent, payer.cache);
    AuthArrives(made.0, FlagsOf(seen), FlagsOf(intent), merchantCache);
    WhatIsSigned(signed, PayerInput(payer, seen), payer.key, payer.signature);
    WhenBuildRefuses(PayerInput(payer, seen));
    AuthNeedsASignature(made.0, FlagsOf(seen));
  }

  lemma AuthNeedsASignature(auth: Auth, flags: WireFlags)
    requires AuthBytes(auth, flags).Ok?
    ensures |auth.signature| == SIGNATURE_BYTES
  {
  }

  /**
    Whatever a payer's device is willing to sign, a merchant holding the same intent accepts, exactly
    when it expects that amount or, where the intent fixes the amount, expects none in particular.
   */
  lemma WhatIsSignedVerifies(signed: set<Signed>, input: CanonicalInput, key: Key, signature: seq<Byte>,
                             expected: Option<int>)
    requires SignAsPayer(signed, input, key, signature).Ok? && |signature| == SIGNATURE_BYTES
    ensures var (auth, made) := SignAsPayer(signed, input, key, signature).value;
            && (VerifyAuth(made, input.intent, auth, expected).Ok? <==>
                expected == Some(input.amount) || (expected.None? && !input.intent.isStatic))
            && (VerifyAuth(made, input.intent, auth, expected).Ok?
                ==> VerifyAuth(made, input.intent, auth, expected).value.input == input)
  {
  }

  /** The payer's key has only ever signed payment messages built from `inputs`. */
  ghost predicate OnlySigned(signed: set<Signed>, payer: Key, inputs: set<CanonicalInput>) {
    forall s :: s in signed && s.key == payer && s.statement.Payment? ==>
                  exists input :: input in inputs && BuildMessage(input) == Ok(s.statement.message)
  }

  /**
    Acceptance of any AUTH, however it was made, means the payer signed this merchant, mint, slot,
    nonce value and amount; and the amount is the one the merchant expected.
   */
  lemma AcceptanceMeansSigned(signed: set<Signed>, intent: Intent, auth: Auth, expected: Option<int>,
                              inputs: set<CanonicalInput>)
    requires VerifyAuth(signed, intent, auth, expected).Ok?
    requires OnlySigned(signed, auth.payer, inputs)
    ensures var accepted := VerifyAuth(signed, intent, auth, expected).value;
            && accepted.input.intent == intent && accepted.input.payer == auth.payer != intent.feePayer
            && (exists input :: input in inputs && EssenceOf(input) == EssenceOf(accepted.input))
            && (expected.Some? ==> accepted.input.amount == expected.value)
            && (intent.isStatic ==> expected.Some?)
            && (intent.amount.Some? && !intent.isStatic ==> accepted.input.amount == intent.amount.value)
  {
    hide U64Bytes;
    var accepted := VerifyAuth(signed, intent, auth, expected).value;
    var s := Signed(auth.payer, Payment(accepted.message), auth.signature);
    assert s in signed && s.statement.Payment?;
    var input :| input in inputs && BuildMessage(input) == Ok(s.statement.message);
    MessageDeterminesInput(input, accepted.input);
  }
}
