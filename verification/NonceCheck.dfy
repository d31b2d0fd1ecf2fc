/** What the network says of a nonce account, and the check a merchant makes of a payment against it. */
module NonceCheck {
  import opened Common
  import opened Types

  datatype NonceAccountState =
    | Absent
    | Uninitialized
    | Initialized(authority: Key, value: Key, lamports: int)

  datatype NonceVerdict =
    | Passes(onChainValue: Key)
    | Stale(onChainValue: Key)
    | NoAccount
    | NotInitialized
    | WrongAuthority

  /** The account exists, is initialized, belongs to the payer and holds the claimed value, in that order. */
  function Check(account: NonceAccountState, payer: Key, claimed: Key): (v: NonceVerdict) {
    match account
    case Absent => NoAccount
    case Uninitialized => NotInitialized
    case Initialized(authority, value, _) =>
      if authority != payer then WrongAuthority
      else if value == claimed then Passes(value)
      else Stale(value)
  }

  /** What each verdict says of the account, in the order the source looks. */
  lemma CheckTells(account: NonceAccountState, payer: Key, claimed: Key)
    ensures var v := Check(account, payer, claimed);
            && (v == NoAccount <==> account == Absent)
            && (v == NotInitialized <==> account == Uninitialized)
            && (v == WrongAuthority <==> account.Initialized? && account.authority != payer)
            && (v.Stale? <==> account.Initialized? && account.authority == payer && account.value != claimed)
            && (v.Passes? <==> account.Initialized? && account.authority == payer && account.value == claimed)
            && (v.Stale? || v.Passes? ==> v.onChainValue == account.value)
  {
  }

  /** `precheckNonce`: not applicable to a payment without a nonce account. */
  function PrecheckNonce(input: CanonicalInput, account: NonceAccountState): (r: Result<NonceVerdict>) {
    if !input.intent.lifetime.DurableNonce? || input.nonceRef.None? then Err(INTERNAL_NOT_APPLICABLE)
    else if !(0 <= input.nonceRef.value.index <= 255) then Err(NONCE_INDEX_OUT_OF_RANGE)
    else Ok(Check(account, input.payer, input.nonceRef.value.value))
  }

  /** The check is made exactly of a payment on the nonce path whose index is in range. */
  lemma WhenPrecheckThrows(input: CanonicalInput, account: NonceAccountState)
    ensures var r := PrecheckNonce(input, account);
            var onNonce := input.intent.lifetime == DurableNonce && input.nonceRef != None;
            && (r == Err(INTERNAL_NOT_APPLICABLE) <==> !onNonce)
            && (r == Err(NONCE_INDEX_OUT_OF_RANGE) <==> onNonce && !(0 <= input.nonceRef.value.index <= 255))
            && (r.Ok? <==> onNonce && 0 <= input.nonceRef.value.index <= 255)
            && (r.Ok? ==> r.value == Check(account, input.payer, input.nonceRef.value.value))
  {
  }
}
