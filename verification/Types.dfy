/** The entities both sides of a payment exchange. */
module Types {
  import opened Common

  datatype TokenProgram = SplToken | Token2022

  datatype Lifetime =
    | DurableNonce
      // `lastValidBlockHeight` is never serialised and has no effect on the message.
    | Fresh(blockhash: Key, lastValidBlockHeight: int)

  datatype NonceRef = NonceRef(index: int, value: Key)

  datatype Intent = Intent(
    merchant: Key,
    mint: Key,
    decimals: int,
    amount: Option<int>,
    lifetime: Lifetime,
    includeCreateAta: bool,
    tokenProgram: TokenProgram,
    feePayer: Key,
    isStatic: bool)

  datatype Auth = Auth(payer: Key, nonceRef: Option<NonceRef>, amount: Option<int>, signature: seq<Byte>)

  datatype CanonicalInput = CanonicalInput(intent: Intent, payer: Key, nonceRef: Option<NonceRef>, amount: int)

  datatype NonceReturnPayload = NonceReturnPayload(nonceIndex: int, newNonceValue: Key, signature: seq<Byte>)

  datatype MintRecord = MintRecord(tokenProgram: TokenProgram, decimals: int)

  /** The payer cannot see the block height, so both sides agree on an intent only up to it. */
  function WithoutBlockHeight(intent: Intent): Intent {
    match intent.lifetime
    case Fresh(blockhash, _) => intent.(lifetime := Fresh(blockhash, 0))
    case DurableNonce => intent
  }
}
