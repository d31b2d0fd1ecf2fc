/**
  What the wire format is for: each payload has one encoding, each accepted encoding one payload, and
  the decoders reject exactly what the independent reference rejects, with the same first error.
 */
module CodecLaws {
  import opened Common
  import opened Types
  import opened Codec
  import Ref = FixtureWire

  /** The caller's mint cache holds this intent's mint, with its decimals and token program. */
  predicate CacheAgrees(intent: Intent, mintCache: map<Key, MintRecord>) {
    intent.mint in mintCache && mintCache[intent.mint] == MintRecord(intent.tokenProgram, intent.decimals)
  }

  lemma HeaderPrefix(bytes: seq<Byte>, t: PayloadType, flags: WireFlags, body: seq<Byte>)
    requires bytes == [VERSION, TypeByte(t), FlagsToByte(flags)] + body && |bytes| == ExpectedLength(t, flags)
    requires !flags.feePayerSeparate
    requires t.INTENT? ==> !flags.amountInAuth
    requires t.NONCE_RETURN? ==> flags == NO_FLAGS
    requires t.STATIC_INTENT? ==> !flags.lifetimeFresh && flags.amountInAuth
    ensures ReadHeader(bytes, t) == Ok(flags)
  {
    FlagsRoundTrip(flags);
  }

  lemma Slice(whole: seq<Byte>, before: seq<Byte>, field: seq<Byte>, rest: seq<Byte>)
    requires whole == before + (field + rest)
    ensures whole[|before|..|before| + |field|] == field && whole[|before| + |field|..] == rest
    ensures whole == (before + field) + rest
  {
  }

  lemma Fields(bytes: seq<Byte>, head: seq<Byte>, merchant: Key, mint: Key, amount: seq<Byte>, decimals: Byte,
               hash: seq<Byte>)
    requires |head| == 3 && |amount| == 8 && bytes == head + (merchant + (mint + (amount + ([decimals] + hash))))
    ensures |bytes| == 76 + |hash| && KeyAt(bytes, 3) == merchant && KeyAt(bytes, 35) == mint
    ensures bytes[67..75] == amount && bytes[75] == decimals && bytes[76..] == hash
  {
  }

  /** Where an encoded intent keeps each field. */
  lemma IntentLayout(intent: Intent)
    requires IntentBytes(intent).Ok?
    ensures var bytes := IntentBytes(intent).value;
            && ReadHeader(bytes, INTENT) == Ok(FlagsOf(intent))
            && KeyAt(bytes, 3) == intent.merchant && KeyAt(bytes, 35) == intent.mint
            && bytes[67..75] == U64Bytes(intent.amount.value) && bytes[75] == ToUint8(intent.decimals)
            && (intent.lifetime.Fresh? ==> KeyAt(bytes, 76) == intent.lifetime.blockhash)
  {
    hide ReadHeader, U64Bytes;
    var bytes, flags, amount := IntentBytes(intent).value, FlagsOf(intent), U64Bytes(intent.amount.value);
    var hash: seq<Byte> := if intent.lifetime.Fresh? then intent.lifetime.blockhash else [];
    var head, last := [VERSION, TypeByte(INTENT), FlagsToByte(flags)], [ToUint8(intent.decimals)] + hash;
    assert bytes == head + (intent.merchant + (intent.mint + (amount + last)));
    Fields(bytes, head, intent.merchant, intent.mint, amount, ToUint8(intent.decimals), hash);
    HeaderPrefix(bytes, INTENT, flags, intent.merchant + (intent.mint + (amount + last)));
  }

  /**
    An encoded intent decodes to itself, up to the block height the wire does not carry, exactly when
    its decimals fit the one byte they are written to and the reader's cache knows the mint alike.
   */
  lemma IntentRoundTrip(intent: Intent, ctx: DecodeContext)
    requires IntentBytes(intent).Ok?
    ensures DecodeIntent(IntentBytes(intent).value, ctx) == Ok(WithoutBlockHeight(intent))
            <==> 0 <= intent.decimals <= 255 && CacheAgrees(intent, ctx.mintCache)
    ensures 0 <= intent.decimals <= 255 ==>
              (DecodeIntent(IntentBytes(intent).value, ctx).Ok? <==> CacheAgrees(intent, ctx.mintCache))
  {
    IntentLayout(intent);
    hide ReadHeader, IntentBytes;
    U64RoundTrip(intent.amount.value);
  }

  lemma IntentReencode(bytes: seq<Byte>, ctx: DecodeContext)
    requires DecodeIntent(bytes, ctx).Ok?
    ensures IntentBytes(DecodeIntent(bytes, ctx).value) == Ok(bytes)
  {
    hide ReadHeader;
    var intent := DecodeIntent(bytes, ctx).value;
    var flags := ReadHeader(bytes, INTENT).value;
    HeaderFlags(bytes, INTENT);
    assert FlagsOf(intent) == flags;
    U64BytesRoundTrip(bytes[67..75]);
    var hash: seq<Byte> := if flags.lifetimeFresh then KeyAt(bytes, 76) else [];
    assert bytes == bytes[..3] + bytes[3..35] + bytes[35..67] + bytes[67..75] + [bytes[75]] + hash;
  }

  lemma HeaderFlags(bytes: seq<Byte>, t: PayloadType)
    requires ReadHeader(bytes, t).Ok?
    ensures var flags := ReadHeader(bytes, t).value;
            && (t.INTENT? ==> !flags.amountInAuth)
            && (t.STATIC_INTENT? ==> flags.amountInAuth && !flags.lifetimeFresh)
            && (t.NONCE_RETURN? ==> flags == NO_FLAGS)
  {
  }

  lemma StaticIntentRoundTrip(intent: Intent, ctx: DecodeContext)
    requires StaticIntentBytes(intent).Ok?
    ensures DecodeStaticIntent(StaticIntentBytes(intent).value, ctx) == Ok(intent)
            <==> 0 <= intent.decimals <= 255 && CacheAgrees(intent, ctx.mintCache)
    ensures 0 <= intent.decimals <= 255 ==>
              (DecodeStaticIntent(StaticIntentBytes(intent).value, ctx).Ok? <==> CacheAgrees(intent, ctx.mintCache))
  {
    hide ReadHeader;
    var bytes, flags := StaticIntentBytes(intent).value, FlagsOf(intent);
    HeaderPrefix(bytes, STATIC_INTENT, flags, intent.merchant + intent.mint + [ToUint8(intent.decimals)]) by {
      assert bytes == [VERSION, TypeByte(STATIC_INTENT), FlagsToByte(flags)]
             + (intent.merchant + intent.mint + [ToUint8(intent.decimals)]);
    }
    assert KeyAt(bytes, 3) == intent.merchant && KeyAt(bytes, 35) == intent.mint
           && bytes[67] == ToUint8(intent.decimals);
  }

  lemma StaticIntentReencode(bytes: seq<Byte>, ctx: DecodeContext)
    requires DecodeStaticIntent(bytes, ctx).Ok?
    ensures StaticIntentBytes(DecodeStaticIntent(bytes, ctx).value) == Ok(bytes)
  {
    hide ReadHeader;
    HeaderFlags(bytes, STATIC_INTENT);
    assert FlagsOf(DecodeStaticIntent(bytes, ctx).value) == ReadHeader(bytes, STATIC_INTENT).value;
    assert bytes == bytes[..3] + bytes[3..35] + bytes[35..67] + [bytes[67]];
  }

  function NonceField(auth: Auth): seq<Byte>
    requires auth.nonceRef.Some? ==> 0 <= auth.nonceRef.value.index <= 255
  {
    match auth.nonceRef case None => [] case Some(n) => [n.index] + n.value
  }

  function AmountField(auth: Auth): seq<Byte>
    requires auth.amount.Some? ==> 0 <= auth.amount.value <= U64_MAX
  {
    match auth.amount case None => [] case Some(a) => U64Bytes(a)
  }

  /** Where an encoded AUTH keeps each field. */
  lemma AuthLayout(auth: Auth, flags: WireFlags)
    requires AuthBytes(auth, flags).Ok?
    ensures var bytes := AuthBytes(auth, flags).value;
            var n, a := |NonceField(auth)|, |AmountField(auth)|;
            && ReadHeader(bytes, AUTH) == Ok(flags)
            && n == (if flags.lifetimeFresh then 0 else 33) && a == (if flags.amountInAuth then 8 else 0)
            && |bytes| == 99 + n + a && bytes[2] == FlagsToByte(flags)
            && bytes[3..35] == auth.payer && bytes[35..35 + n] == NonceField(auth)
            && bytes[35 + n..35 + n + a] == AmountField(auth) && bytes[35 + n + a..] == auth.signature
  {
    hide ReadHeader, U64Bytes;
    var bytes := AuthBytes(auth, flags).value;
    var head, nonce, amount := [VERSION, TypeByte(AUTH), FlagsToByte(flags)], NonceField(auth), AmountField(auth);
    assert bytes == head + (auth.payer + (nonce + (amount + auth.signature)));
    HeaderPrefix(bytes, AUTH, flags, auth.payer + (nonce + (amount + auth.signature)));
    Slice(bytes, head, auth.payer, nonce + (amount + auth.signature));
    Slice(bytes, head + auth.payer, nonce, amount + auth.signature);
    Slice(bytes, head + auth.payer + nonce, amount, auth.signature);
  }

  /** An encoded AUTH decodes to itself exactly under the flags it was encoded with. */
  lemma AuthRoundTrip(auth: Auth, flags: WireFlags, ctx: DecodeContext)
    requires AuthBytes(auth, flags).Ok?
    ensures DecodeAuth(AuthBytes(auth, flags).value, ctx) == Ok(auth) <==> ctx.intentFlags == Some(flags)
  {
    AuthLayout(auth, flags);
    FlagsRoundTrip(flags);
    if ctx.intentFlags.Some? {
      FlagsRoundTrip(ctx.intentFlags.value);
    }
    hide ReadHeader, FlagsToByte, FlagsFromByte;
    var bytes := AuthBytes(auth, flags).value;
    if auth.nonceRef.Some? {
      assert bytes[35..68][0] == auth.nonceRef.value.index
             && bytes[36..68] == bytes[35..68][1..] == auth.nonceRef.value.value;
    }
    if auth.amount.Some? {
      U64RoundTrip(auth.amount.value);
    }
    hide AuthBytes, U64Bytes, U64Value;
    if ctx.intentFlags == Some(flags) {
      var offset := 35 + |NonceField(auth)| + |AmountField(auth)|;
      assert bytes[offset..offset + 64] == bytes[offset..];
    }
  }

  lemma AuthReencode(bytes: seq<Byte>, ctx: DecodeContext)
    requires DecodeAuth(bytes, ctx).Ok?
    ensures AuthBytes(DecodeAuth(bytes, ctx).value, ctx.intentFlags.value) == Ok(bytes)
  {
    var auth, flags := DecodeAuth(bytes, ctx).value, ReadHeader(bytes, AUTH).value;
    FlagsRoundTrip(flags);
    FlagsRoundTrip(ctx.intentFlags.value);
    assert flags == ctx.intentFlags.value;
    hide ReadHeader, FlagsFromByte;
    var offset := if flags.lifetimeFresh then 35 else 68;
    var last := if flags.amountInAuth then offset + 8 else offset;
    if flags.amountInAuth {
      U64BytesRoundTrip(bytes[offset..offset + 8]);
    }
    hide U64Bytes, U64Value, FlagsToByte;
    assert NonceField(auth) == bytes[35..offset];
    assert AmountField(auth) == bytes[offset..last];
    assert auth.signature == bytes[last..];
    assert bytes == bytes[..3] + bytes[3..35] + bytes[35..offset] + bytes[offset..last] + bytes[last..];
  }

  lemma NonceReturnRoundTrip(payload: NonceReturnPayload)
    requires NonceReturnBytes(payload).Ok?
    ensures DecodeNonceReturn(NonceReturnBytes(payload).value) == Ok(payload)
  {
    hide ReadHeader;
    var bytes := NonceReturnBytes(payload).value;
    HeaderPrefix(bytes, NONCE_RETURN, NO_FLAGS, [payload.nonceIndex] + payload.newNonceValue + payload.signature) by {
      assert bytes == [VERSION, TypeByte(NONCE_RETURN), 0]
             + ([payload.nonceIndex] + payload.newNonceValue + payload.signature);
    }
    assert bytes[3] == payload.nonceIndex && bytes[4..36] == payload.newNonceValue
           && bytes[36..100] == payload.signature;
  }

  lemma NonceReturnReencode(bytes: seq<Byte>)
    requires DecodeNonceReturn(bytes).Ok?
    ensures NonceReturnBytes(DecodeNonceReturn(bytes).value) == Ok(bytes)
  {
    hide ReadHeader;
    HeaderFlags(bytes, NONCE_RETURN);
    assert bytes == bytes[..3] + [bytes[3]] + bytes[4..36] + bytes[36..100];
  }

  // --- agreement with the reference ----------------------------------------------------------------

  function RefType(t: PayloadType): Ref.PayloadType {
    match t
    case INTENT => Ref.INTENT
    case STATIC_INTENT => Ref.STATIC_INTENT
    case AUTH => Ref.AUTH
    case NONCE_RETURN => Ref.NONCE_RETURN
  }

  function Failure<T>(r: Result<T>): Option<ErrorCode> {
    match r case Ok(_) => None case Err(code) => Some(code)
  }

  /** The error a decoder raises for `bytes`, or None when it accepts them. */
  function Verdict(t: PayloadType, bytes: seq<Byte>, ctx: DecodeContext): Option<ErrorCode> {
    match t
    case INTENT => Failure(DecodeIntent(bytes, ctx))
    case STATIC_INTENT => Failure(DecodeStaticIntent(bytes, ctx))
    case AUTH => Failure(DecodeAuth(bytes, ctx))
    case NONCE_RETURN => Failure(DecodeNonceReturn(bytes))
  }

  lemma FlagBits(b: Byte)
    ensures b >= 32 <==> Ref.Flag(b, 5) || Ref.Flag(b, 6) || Ref.Flag(b, 7)
    ensures Ref.Flag(b, 0) == Bit(b, 1) && Ref.Flag(b, 1) == Bit(b, 2) && Ref.Flag(b, 2) == Bit(b, 4)
    ensures Ref.Flag(b, 3) == Bit(b, 8) && Ref.Flag(b, 4) == Bit(b, 16)
  {
    var b5: int, b6: int, b7: int := b / 32, b / 64, b / 128;
    assert b5 / 2 == b6 && b6 / 2 == b7 && b7 <= 1;
    assert b5 == b6 * 2 + b5 % 2 && b6 == b7 * 2 + b6 % 2;
  }

  /**
    Every decoder gives the reference's verdict on every byte string: it accepts exactly what `Check`
    accepts and otherwise raises the same first error.  Because the codec reads the intent's flags
    into five booleans, it compares against that byte without its three reserved bits.
   */
  lemma DecoderIsReference(t: PayloadType, bytes: seq<Byte>, mintCache: map<Key, MintRecord>, intentFlags: Byte)
    ensures Verdict(t, bytes, DecodeContext(mintCache, Some(FlagsFromByte(intentFlags))))
            == Ref.Check(Ref.Decode(RefType(t)), bytes, mintCache, intentFlags % 32)
  {
    FlagsByteRoundTrip(intentFlags);
    if |bytes| >= 3 {
      FlagBits(bytes[2]);
      HeaderIsReference(t, bytes, mintCache, intentFlags % 32);
    }
  }

  /** Steps 2 to 9 agree; what remains of `Check` are steps 10 and 11. */
  lemma HeaderIsReference(t: PayloadType, bytes: seq<Byte>, mintCache: map<Key, MintRecord>, intentFlags: Byte)
    requires |bytes| >= 3
    ensures ReadHeader(bytes, t).Err? ==>
              Ref.Check(Ref.Decode(RefType(t)), bytes, mintCache, intentFlags) == Some(ReadHeader(bytes, t).code)
    ensures ReadHeader(bytes, t).Ok? ==>
              && ReadHeader(bytes, t).value == FlagsFromByte(bytes[2])
              && |bytes| == Ref.ExpectedLength(RefType(t), bytes[2])
              && Ref.Check(Ref.Decode(RefType(t)), bytes, mintCache, intentFlags)
                 == LateCheck(t, bytes, mintCache, intentFlags)
  {
    hide Ref.Flag, Bit;
    FlagBits(bytes[2]);
  }

  function LateCheck(t: PayloadType, bytes: seq<Byte>, mintCache: map<Key, MintRecord>,
                     intentFlags: Byte): Option<ErrorCode>
    requires |bytes| >= if t.INTENT? then 76 else 68
  {
    match t
    case AUTH => if bytes[2] != intentFlags then Some(WIRE_FLAGS_MISMATCH) else None
    case NONCE_RETURN => None
    case _ =>
      var mint: Key := bytes[35..67];
      if mint !in mintCache then Some(MINT_UNKNOWN)
      else if bytes[if t.INTENT? then 75 else 67] != mintCache[mint].decimals then Some(MINT_DECIMALS_MISMATCH)
      else if Ref.Flag(bytes[2], 2) != mintCache[mint].tokenProgram.Token2022? then Some(MINT_TOKEN_PROGRAM_MISMATCH)
      else None
  }

  lemma PeekIsReference(bytes: seq<Byte>, mintCache: map<Key, MintRecord>, intentFlags: Byte)
    ensures Failure(PeekPayloadType(bytes)) == Ref.Check(Ref.PeekPayloadType, bytes, mintCache, intentFlags)
  {
  }

  // --- where the laws stop -------------------------------------------------------------------------

  const MINT: Key := Repeated(1, 32)
  const MERCHANT: Key := Repeated(2, 32)
  const PAYER: Key := Repeated(3, 32)

  /** An intent in a mint of 256 decimals. */
  function WideIntent(): Intent {
    Intent(MERCHANT, MINT, 256, Some(5), DurableNonce, false, SplToken, MERCHANT, false)
  }

  /** It encodes without complaint, and the reader, whose cache gives the mint no decimals, accepts another intent. */
  lemma WideDecimalsAreTruncated()
    ensures IntentBytes(WideIntent()).Ok?
    ensures var ctx := DecodeContext(map[MINT := MintRecord(SplToken, 0)], None);
            DecodeIntent(IntentBytes(WideIntent()).value, ctx)
              == Ok(WideIntent().(decimals := 0)) != Ok(WithoutBlockHeight(WideIntent()))
  {
    IntentLayout(WideIntent());
    hide ReadHeader, IntentBytes;
    U64RoundTrip(5);
  }

  /**
    A well-formed AUTH with no flags, against an intent-flags byte with a reserved bit set: the reference
    refuses, the codec does not.
   */
  lemma ReservedIntentFlagsAreIgnored()
    ensures var auth := Auth(PAYER, Some(NonceRef(0, MINT)), None, Repeated(4, 64));
            && AuthBytes(auth, NO_FLAGS).Ok?
            && var bytes := AuthBytes(auth, NO_FLAGS).value;
               && DecodeAuth(bytes, DecodeContext(map[], Some(FlagsFromByte(32)))) == Ok(auth)
               && Ref.Check(Ref.Decode(Ref.AUTH), bytes, map[], 32) == Some(WIRE_FLAGS_MISMATCH)
  {
    var auth := Auth(PAYER, Some(NonceRef(0, MINT)), None, Repeated(4, 64));
    var bytes := AuthBytes(auth, NO_FLAGS).value;
    assert FlagsFromByte(32) == NO_FLAGS;
    AuthRoundTrip(auth, NO_FLAGS, DecodeContext(map[], Some(NO_FLAGS)));
    AuthLayout(auth, NO_FLAGS);
    HeaderIsReference(AUTH, bytes, map[], 32);
    hide AuthBytes, ReadHeader, Ref.Check, FlagsFromByte;
    assert bytes[2] == 0;
  }
}
