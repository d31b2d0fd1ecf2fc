/** The bytes on the wire, place by place and number by number, and what of any bytes is refused. */
module WireLayout {
  import opened Common
  import opened Types
  import opened Codec
  import opened CodecLaws

  predicate IsLittleEndian(b: seq<Byte>, v: int) {
    |b| == 8 && v == LittleEndian(b[0], b[1], b[2], b[3], b[4], b[5], b[6], b[7])
  }

  /** One bit to a flag: fresh lifetime, account creation, Token-2022, and the amount in the AUTH. */
  predicate FlagsAre(b: Byte, isFresh: bool, create: bool, token2022: bool, amountInAuth: bool) {
    b as int == (if isFresh then 1 else 0) + (if create then 2 else 0) + (if token2022 then 4 else 0)
                + (if amountInAuth then 16 else 0)
  }

  /** An intent: merchant, mint, amount, decimals, and the blockhash of a fresh lifetime. */
  lemma IntentOnTheWire(intent: Intent)
    requires IntentBytes(intent).Ok?
    ensures var b, isFresh := IntentBytes(intent).value, intent.lifetime.Fresh?;
            && |b| == (if isFresh then 108 else 76) && b[0] == 1 && b[1] == 1
            && FlagsAre(b[2], isFresh, intent.includeCreateAta, intent.tokenProgram.Token2022?, false)
            && b[3..35] == intent.merchant && b[35..67] == intent.mint
            && IsLittleEndian(b[67..75], intent.amount.value) && b[75] as int == intent.decimals % 256
            && (isFresh ==> b[76..108] == intent.lifetime.blockhash)
  {
    IntentLayout(intent);
    U64IsLittleEndian(intent.amount.value);
    hide U64Bytes, ReadHeader, LittleEndian;
  }

  /** A static intent: merchant, mint and decimals, on the nonce path, the amount left to the AUTH. */
  lemma StaticIntentOnTheWire(intent: Intent)
    requires StaticIntentBytes(intent).Ok?
    ensures var b := StaticIntentBytes(intent).value;
            && |b| == 68 && b[0] == 1 && b[1] == 2
            && FlagsAre(b[2], false, intent.includeCreateAta, intent.tokenProgram.Token2022?, true)
            && b[3..35] == intent.merchant && b[35..67] == intent.mint && b[67] as int == intent.decimals % 256
  {
  }

  /**
    An AUTH: payer, then slot and value on the nonce path, then the amount where the intent is open, then the
    signature.
   */
  lemma AuthOnTheWire(auth: Auth, flags: WireFlags)
    requires AuthBytes(auth, flags).Ok?
    ensures var b, n, a := AuthBytes(auth, flags).value, if auth.nonceRef.Some? then 33 else 0,
            if auth.amount.Some? then 8 else 0;
            && |b| == 35 + n + a + 64 && b[0] == 1 && b[1] == 3
            && FlagsAre(b[2], auth.nonceRef.None?, flags.includeCreateAta, flags.token2022, auth.amount.Some?)
            && b[3..35] == auth.payer
            && (n > 0 ==> b[35] as int == auth.nonceRef.value.index && b[36..68] == auth.nonceRef.value.value)
            && (a > 0 ==> IsLittleEndian(b[35 + n..35 + n + 8], auth.amount.value))
            && b[35 + n + a..] == auth.signature
  {
    AuthLayout(auth, flags);
    if auth.amount.Some? {
      U64IsLittleEndian(auth.amount.value);
    }
    hide U64Bytes, ReadHeader, LittleEndian;
    if auth.nonceRef.Some? {
      var b := AuthBytes(auth, flags).value;
      assert b[35..68][0] == b[35] && b[36..68] == b[35..68][1..];
    }
  }

  /** A nonce return: slot, new value, signature, and no flags. */
  lemma NonceReturnOnTheWire(payload: NonceReturnPayload)
    requires NonceReturnBytes(payload).Ok?
    ensures var b := NonceReturnBytes(payload).value;
            && |b| == 100 && b[0] == 1 && b[1] == 4 && b[2] == 0 && b[3] as int == payload.nonceIndex
            && b[4..36] == payload.newNonceValue && b[36..100] == payload.signature
  {
  }

  // --- what is not encoded -------------------------------------------------------------------------

  predicate IsU64(n: int) {
    0 <= n < 256 * 256 * 256 * 256 * 256 * 256 * 256 * 256
  }

  /** An intent is sent only when open on the payer's side, at a price, paid for by the merchant. */
  lemma WhenIntentsAreRefused(intent: Intent)
    ensures IntentBytes(intent).Ok? <==>
            !intent.isStatic && intent.feePayer == intent.merchant && intent.amount.Some? && IsU64(intent.amount.value)
    ensures IntentBytes(intent) == Err(WIRE_UNEXPECTED_TYPE) <==> intent.isStatic
    ensures IntentBytes(intent) == Err(WIRE_STATIC_CONSTRAINT) <==> !intent.isStatic && intent.amount.None?
    ensures IntentBytes(intent) == Err(WIRE_FEE_PAYER_SEPARATE_UNSUPPORTED) <==>
            !intent.isStatic && intent.amount.Some? && intent.feePayer != intent.merchant
    ensures IntentBytes(intent) == Err(WIRE_LENGTH_MISMATCH) <==>
            !intent.isStatic && intent.feePayer == intent.merchant && intent.amount.Some? && !IsU64(intent.amount.value)
  {
    hide FlagsToByte, Ref.EncodeIntent;
  }

  /** A printed intent carries no price and no blockhash. */
  lemma WhenStaticIntentsAreRefused(intent: Intent)
    ensures StaticIntentBytes(intent).Ok? <==>
            && intent.isStatic && intent.amount.None? && intent.lifetime.DurableNonce?
            && intent.feePayer == intent.merchant
    ensures StaticIntentBytes(intent) == Err(WIRE_UNEXPECTED_TYPE) <==> !intent.isStatic
    ensures StaticIntentBytes(intent) == Err(WIRE_STATIC_CONSTRAINT) <==>
            intent.isStatic && (intent.amount.Some? || intent.lifetime.Fresh?)
    ensures StaticIntentBytes(intent) == Err(WIRE_FEE_PAYER_SEPARATE_UNSUPPORTED) <==>
            && intent.isStatic && intent.amount.None? && intent.lifetime.DurableNonce?
            && intent.feePayer != intent.merchant
  {
    hide FlagsToByte, Ref.EncodeStaticIntent;
  }

  /** What the AUTH carries is what its flags say, and every number fits its place. */
  predicate AgreesWithFlags(auth: Auth, flags: WireFlags) {
    flags.lifetimeFresh != auth.nonceRef.Some? && flags.amountInAuth == auth.amount.Some?
  }

  predicate SlotFits(auth: Auth) {
    auth.nonceRef.Some? ==> 0 <= auth.nonceRef.value.index < 256
  }

  lemma WhenAuthsAreRefused(auth: Auth, flags: WireFlags)
    ensures AuthBytes(auth, flags).Ok? <==>
            && |auth.signature| == 64 && AgreesWithFlags(auth, flags) && !flags.feePayerSeparate
            && SlotFits(auth) && (auth.amount.Some? ==> IsU64(auth.amount.value))
    ensures AuthBytes(auth, flags) == Err(SIG_LENGTH) <==> |auth.signature| != 64
    ensures AuthBytes(auth, flags) == Err(WIRE_FLAGS_MISMATCH) <==>
            |auth.signature| == 64 && !AgreesWithFlags(auth, flags)
    ensures AuthBytes(auth, flags) == Err(WIRE_FEE_PAYER_SEPARATE_UNSUPPORTED) <==>
            |auth.signature| == 64 && AgreesWithFlags(auth, flags) && flags.feePayerSeparate
    ensures AuthBytes(auth, flags) == Err(NONCE_INDEX_OUT_OF_RANGE) <==>
            && |auth.signature| == 64 && AgreesWithFlags(auth, flags) && !flags.feePayerSeparate && !SlotFits(auth)
    ensures AuthBytes(auth, flags).Err? ==>
            AuthBytes(auth, flags).code in {SIG_LENGTH, WIRE_FLAGS_MISMATCH, WIRE_FEE_PAYER_SEPARATE_UNSUPPORTED,
                                            NONCE_INDEX_OUT_OF_RANGE, WIRE_LENGTH_MISMATCH}
  {
    hide FlagsToByte, Ref.EncodeAuth;
  }

  lemma WhenNonceReturnsAreRefused(payload: NonceReturnPayload)
    ensures NonceReturnBytes(payload).Ok? <==> 0 <= payload.nonceIndex < 256 && |payload.signature| == 64
    ensures NonceReturnBytes(payload) == Err(NONCE_INDEX_OUT_OF_RANGE) <==> !(0 <= payload.nonceIndex < 256)
    ensures NonceReturnBytes(payload) == Err(SIG_LENGTH) <==>
            0 <= payload.nonceIndex < 256 && |payload.signature| != 64
  {
    hide Ref.EncodeNonceReturn;
  }

  // --- what is refused -----------------------------------------------------------------------------

  function Number(t: PayloadType): int {
    match t
    case INTENT => 1
    case STATIC_INTENT => 2
    case AUTH => 3
    case NONCE_RETURN => 4
  }

  predicate Odd(n: int) {
    n % 2 == 1
  }

  /** How long a payload of this type with these flags must be. */
  function Length(t: PayloadType, flags: Byte): int {
    var isFresh, amountInAuth := Odd(flags as int), Odd(flags as int / 16);
    match t
    case INTENT => if isFresh then 108 else 76
    case STATIC_INTENT => 68
    case AUTH => 99 + (if isFresh then 0 else 33) + (if amountInAuth then 8 else 0)
    case NONCE_RETURN => 100
  }

  /** The first thing wrong with the bytes, in the order the checks are made. */
  function Wrong(t: PayloadType, bytes: seq<Byte>, ctx: DecodeContext): Option<ErrorCode> {
    if |bytes| < 3 then Some(WIRE_LENGTH_MISMATCH)
    else if bytes[0] != 1 then Some(WIRE_VERSION_UNSUPPORTED)
    else if !(1 <= bytes[1] <= 4) then Some(WIRE_UNKNOWN_TYPE)
    else if bytes[1] as int != Number(t) then Some(WIRE_UNEXPECTED_TYPE)
    else
      var flags: int := bytes[2];
      if flags >= 32 then Some(WIRE_RESERVED_FLAG_SET)
      else if Odd(flags / 8) then Some(WIRE_FEE_PAYER_SEPARATE_UNSUPPORTED)
      else if (t == INTENT && Odd(flags / 16)) || (t == NONCE_RETURN && flags != 0)
        then Some(WIRE_FLAG_NOT_ALLOWED_FOR_TYPE)
      else if t == STATIC_INTENT && (Odd(flags) || !Odd(flags / 16)) then Some(WIRE_STATIC_CONSTRAINT)
      else if |bytes| != Length(t, bytes[2]) then Some(WIRE_LENGTH_MISMATCH)
      else if t == AUTH then
        if ctx.intentFlags.Some? && FlagsFromByte(bytes[2]) == ctx.intentFlags.value then None
        else Some(WIRE_FLAGS_MISMATCH)
      else if t == NONCE_RETURN then None
      else
        var mint: Key := bytes[35..67];
        if mint !in ctx.mintCache then Some(MINT_UNKNOWN)
        else if bytes[|bytes| - 1 - if t == INTENT && Odd(flags) then 32 else 0] as int != ctx.mintCache[mint].decimals
          then Some(MINT_DECIMALS_MISMATCH)
        else if Odd(flags / 4) != (ctx.mintCache[mint].tokenProgram == Token2022) then Some(MINT_TOKEN_PROGRAM_MISMATCH)
        else None
  }

  /** The flags are ones this type may have. */
  predicate Early(t: PayloadType, b: Byte) {
    var flags: int := b;
    && (t == INTENT ==> !Odd(flags / 16)) && (t == NONCE_RETURN ==> flags == 0)
    && (t == STATIC_INTENT ==> !Odd(flags) && Odd(flags / 16))
  }

  lemma LengthIs(t: PayloadType, b: Byte)
    requires b < 32 && !Odd(b as int / 8)
    ensures ExpectedLength(t, FlagsFromByte(b)) == Length(t, b)
  {
  }

  lemma HeaderIsJudged(t: PayloadType, bytes: seq<Byte>, ctx: DecodeContext)
    ensures match ReadHeader(bytes, t)
            case Err(code) => Wrong(t, bytes, ctx) == Some(code)
            case Ok(flags) =>
              && |bytes| == Length(t, bytes[2]) && bytes[2] < 32 && !Odd(bytes[2] as int / 8)
              && flags == FlagsFromByte(bytes[2]) && FlagsToByte(flags) == bytes[2]
              && flags.lifetimeFresh == Odd(bytes[2] as int) && flags.token2022 == Odd(bytes[2] as int / 4)
              && bytes[0] == 1 && bytes[1] as int == Number(t) && Early(t, bytes[2])
  {
    if |bytes| >= 3 {
      FlagsByteRoundTrip(bytes[2]);
      if bytes[2] < 32 && !Odd(bytes[2] as int / 8) {
        LengthIs(t, bytes[2]);
      }
    }
  }

  /** Any bytes are refused for the first thing that is wrong with them, and decoded when nothing is. */
  lemma EveryPayloadIsJudged(t: PayloadType, bytes: seq<Byte>, ctx: DecodeContext)
    ensures Verdict(t, bytes, ctx) == Wrong(t, bytes, ctx)
  {
    HeaderIsJudged(t, bytes, ctx);
    hide ReadHeader, FlagsToByte, FlagsFromByte, Odd;
    if t == AUTH && ReadHeader(bytes, t).Ok? && ctx.intentFlags.Some? {
      FlagsRoundTrip(ctx.intentFlags.value);
      FlagsRoundTrip(ReadHeader(bytes, t).value);
    }
  }
}
