/** The four payload types on the wire: encoders that fill a buffer, decoders with a fixed check order. */
module Codec {
  import opened Common
  import opened Types
  import Ref = FixtureWire

  datatype PayloadType = INTENT | STATIC_INTENT | AUTH | NONCE_RETURN

  datatype WireFlags = WireFlags(
    lifetimeFresh: bool,
    includeCreateAta: bool,
    token2022: bool,
    feePayerSeparate: bool,
    amountInAuth: bool)

  datatype DecodeContext = DecodeContext(mintCache: map<Key, MintRecord>, intentFlags: Option<WireFlags>)

  const VERSION: Byte := 1
  const HEADER_BYTES: nat := 3
  const NO_FLAGS: WireFlags := WireFlags(false, false, false, false, false)

  function TypeByte(t: PayloadType): Byte {
    match t
    case INTENT => 1
    case STATIC_INTENT => 2
    case AUTH => 3
    case NONCE_RETURN => 4
  }

  function TypeOf(b: Byte): (r: Option<PayloadType>) {
    match b
    case 1 => Some(INTENT)
    case 2 => Some(STATIC_INTENT)
    case 3 => Some(AUTH)
    case 4 => Some(NONCE_RETURN)
    case _ => None
  }

  /** `byte & 2^k !== 0`, for the five flag bits `m`. */
  predicate Bit(b: Byte, m: int)
    requires m in {1, 2, 4, 8, 16}
  {
    b / m % 2 == 1
  }

  function FlagsFromByte(b: Byte): (flags: WireFlags) {
    WireFlags(Bit(b, 1), Bit(b, 2), Bit(b, 4), Bit(b, 8), Bit(b, 16))
  }

  function FlagsToByte(flags: WireFlags): (b: Byte) {
    (if flags.lifetimeFresh then 1 else 0) + (if flags.includeCreateAta then 2 else 0)
    + (if flags.token2022 then 4 else 0) + (if flags.feePayerSeparate then 8 else 0)
    + (if flags.amountInAuth then 16 else 0)
  }

  lemma FlagsRoundTrip(flags: WireFlags)
    ensures FlagsFromByte(FlagsToByte(flags)) == flags && FlagsToByte(flags) < 32
  {
  }

  /** The flag byte loses exactly its three reserved bits. */
  lemma FlagsByteRoundTrip(b: Byte)
    ensures FlagsToByte(FlagsFromByte(b)) == b % 32
  {
    var b1: int, b2: int, b3: int, b4: int := b / 2, b / 4, b / 8, b / 16;
    assert b1 / 2 == b2 && b2 / 2 == b3 && b3 / 2 == b4 && b4 / 2 == b / 32;
    assert b == b1 * 2 + b % 2 && b1 == b2 * 2 + b1 % 2 && b2 == b3 * 2 + b2 % 2 && b3 == b4 * 2 + b3 % 2;
  }

  function ExpectedLength(t: PayloadType, flags: WireFlags): nat {
    match t
    case INTENT => 76 + (if flags.lifetimeFresh then KEY_BYTES else 0)
      + (if flags.feePayerSeparate then KEY_BYTES else 0)
    case STATIC_INTENT => 68
    case AUTH => 99 + (if flags.lifetimeFresh then 0 else 33) + (if flags.amountInAuth then 8 else 0)
    case NONCE_RETURN => 100
  }

  function FlagsOf(intent: Intent): (flags: WireFlags) {
    WireFlags(
      intent.lifetime.Fresh?,
      intent.includeCreateAta,
      intent.tokenProgram.Token2022?,
      intent.feePayer != intent.merchant,
      intent.isStatic)
  }

  /** A byte store keeps the low eight bits of what is assigned to it. */
  function ToUint8(n: int): Byte {
    n % 256
  }

  // --- what an encoder must produce: its guards, then the reference concatenation -------------------

  function IntentBytes(intent: Intent): (r: Result<seq<Byte>>) {
    if intent.isStatic then Err(WIRE_UNEXPECTED_TYPE)
    else if intent.amount.None? then Err(WIRE_STATIC_CONSTRAINT)
    else if intent.feePayer != intent.merchant then Err(WIRE_FEE_PAYER_SEPARATE_UNSUPPORTED)
    else if !(0 <= intent.amount.value <= U64_MAX) then Err(WIRE_LENGTH_MISMATCH)
    else
      Ok(Ref.EncodeIntent(FlagsToByte(FlagsOf(intent)), intent.merchant, intent.mint, intent.amount.value,
                          ToUint8(intent.decimals),
                          if intent.lifetime.Fresh? then Some(intent.lifetime.blockhash) else None))
  }

  function StaticIntentBytes(intent: Intent): (r: Result<seq<Byte>>) {
    if !intent.isStatic then Err(WIRE_UNEXPECTED_TYPE)
    else if intent.amount.Some? then Err(WIRE_STATIC_CONSTRAINT)
    else if intent.lifetime.Fresh? then Err(WIRE_STATIC_CONSTRAINT)
    else if intent.feePayer != intent.merchant then Err(WIRE_FEE_PAYER_SEPARATE_UNSUPPORTED)
    else Ok(Ref.EncodeStaticIntent(FlagsToByte(FlagsOf(intent)), intent.merchant, intent.mint,
                                   ToUint8(intent.decimals)))
  }

  function AuthBytes(auth: Auth, flags: WireFlags): (r: Result<seq<Byte>>) {
    if |auth.signature| != SIGNATURE_BYTES then Err(SIG_LENGTH)
    else if flags.lifetimeFresh != auth.nonceRef.None? then Err(WIRE_FLAGS_MISMATCH)
    else if flags.amountInAuth != auth.amount.Some? then Err(WIRE_FLAGS_MISMATCH)
    else if flags.feePayerSeparate then Err(WIRE_FEE_PAYER_SEPARATE_UNSUPPORTED)
    else if auth.nonceRef.Some? && !(0 <= auth.nonceRef.value.index <= 255) then Err(NONCE_INDEX_OUT_OF_RANGE)
    else if auth.amount.Some? && !(0 <= auth.amount.value <= U64_MAX) then Err(WIRE_LENGTH_MISMATCH)
    else
      Ok(Ref.EncodeAuth(FlagsToByte(flags), auth.payer,
                        match auth.nonceRef case None => None case Some(n) => Some((n.index, n.value)),
                        auth.amount, auth.signature))
  }

  function NonceReturnBytes(payload: NonceReturnPayload): (r: Result<seq<Byte>>) {
    if !(0 <= payload.nonceIndex <= 255) then Err(NONCE_INDEX_OUT_OF_RANGE)
    else if |payload.signature| != SIGNATURE_BYTES then Err(SIG_LENGTH)
    else Ok(Ref.EncodeNonceReturn(payload.nonceIndex, payload.newNonceValue, payload.signature))
  }

  // --- the encoders, writing into a buffer at offsets ----------------------------------------------

  method WriteHeader(out: array<Byte>, t: PayloadType, flags: WireFlags) returns (r: Result<()>)
    requires out.Length >= HEADER_BYTES
    modifies out
    ensures r == if flags.feePayerSeparate then Err(WIRE_FEE_PAYER_SEPARATE_UNSUPPORTED) else Ok(())
    ensures r.Ok? ==> out[..] == [VERSION, TypeByte(t), FlagsToByte(flags)] + old(out[HEADER_BYTES..])
    ensures r.Ok? ==> out[..HEADER_BYTES] == [VERSION, TypeByte(t), FlagsToByte(flags)]
  {
    if flags.feePayerSeparate {
      return Err(WIRE_FEE_PAYER_SEPARATE_UNSUPPORTED);
    }
    out[0] := VERSION;
    out[1] := TypeByte(t);
    out[2] := FlagsToByte(flags);
    r := Ok(());
  }

  method WriteU64(out: array<Byte>, offset: nat, value: int) returns (r: Result<()>)
    requires offset + 8 <= out.Length
    modifies out
    ensures r == if 0 <= value <= U64_MAX then Ok(()) else Err(WIRE_LENGTH_MISMATCH)
    ensures r.Ok? ==> out[..] == old(out[..offset]) + U64Bytes(value) + old(out[offset + 8..])
    ensures r.Ok? ==> out[..offset + 8] == old(out[..offset]) + U64Bytes(value)
  {
    if value < 0 || value > U64_MAX {
      return Err(WIRE_LENGTH_MISMATCH);
    }
    Set(out, offset, U64Bytes(value));
    r := Ok(());
  }

  method EncodeIntent(intent: Intent) returns (r: Result<seq<Byte>>)
    ensures r == IntentBytes(intent)
  {
    if intent.isStatic {
      return Err(WIRE_UNEXPECTED_TYPE);
    }
    if intent.amount.None? {
      return Err(WIRE_STATIC_CONSTRAINT);
    }
    var flags := FlagsOf(intent);
    var out := new Byte[ExpectedLength(INTENT, flags)];
    var header := WriteHeader(out, INTENT, flags);
    if header.Err? {
      return Err(header.code);
    }
    Set(out, 3, intent.merchant);
    assert out[..35] == Ref.Header(Ref.INTENT, FlagsToByte(flags)) + intent.merchant;
    Set(out, 35, intent.mint);
    assert out[..67] == Ref.Header(Ref.INTENT, FlagsToByte(flags)) + intent.merchant + intent.mint;
    var amount := WriteU64(out, 67, intent.amount.value);
    if amount.Err? {
      return Err(amount.code);
    }
    ghost var head := Ref.Header(Ref.INTENT, FlagsToByte(flags)) + intent.merchant + intent.mint
      + U64Bytes(intent.amount.value);
    assert out[..75] == head;
    out[75] := ToUint8(intent.decimals);
    assert out[..76] == head + [ToUint8(intent.decimals)];
    if intent.lifetime.Fresh? {
      Set(out, 76, intent.lifetime.blockhash);
      assert out[..] == out[..76] + intent.lifetime.blockhash;
    } else {
      assert out[..] == out[..76] + [];
    }
    assert out[..] == IntentBytes(intent).value;
    r := Ok(out[..]);
  }

  method EncodeStaticIntent(intent: Intent) returns (r: Result<seq<Byte>>)
    ensures r == StaticIntentBytes(intent)
  {
    if !intent.isStatic {
      return Err(WIRE_UNEXPECTED_TYPE);
    }
    if intent.amount.Some? {
      return Err(WIRE_STATIC_CONSTRAINT);
    }
    if intent.lifetime.Fresh? {
      return Err(WIRE_STATIC_CONSTRAINT);
    }
    var flags := FlagsOf(intent);
    var out := new Byte[ExpectedLength(STATIC_INTENT, flags)];
    var header := WriteHeader(out, STATIC_INTENT, flags);
    if header.Err? {
      return Err(header.code);
    }
    Set(out, 3, intent.merchant);
    assert out[..35] == Ref.Header(Ref.STATIC_INTENT, FlagsToByte(flags)) + intent.merchant;
    Set(out, 35, intent.mint);
    assert out[..67] == Ref.Header(Ref.STATIC_INTENT, FlagsToByte(flags)) + intent.merchant + intent.mint;
    out[67] := ToUint8(intent.decimals);
    assert out[..] == out[..67] + [ToUint8(intent.decimals)];
    r := Ok(out[..]);
  }

  method EncodeAuth(auth: Auth, flags: WireFlags) returns (r: Result<seq<Byte>>)
    ensures r == AuthBytes(auth, flags)
  {
    if |auth.signature| != SIGNATURE_BYTES {
      return Err(SIG_LENGTH);
    }
    if flags.lifetimeFresh != auth.nonceRef.None? {
      return Err(WIRE_FLAGS_MISMATCH);
    }
    if flags.amountInAuth != auth.amount.Some? {
      return Err(WIRE_FLAGS_MISMATCH);
    }
    hide U64Bytes, FlagsToByte;
    var out := new Byte[ExpectedLength(AUTH, flags)];
    var header := WriteHeader(out, AUTH, flags);
    if header.Err? {
      return Err(header.code);
    }
    Set(out, 3, auth.payer);
    var offset := 35;
    ghost var head := Ref.Header(Ref.AUTH, FlagsToByte(flags)) + auth.payer;
    assert out[..offset] == head;
    if auth.nonceRef.Some? {
      if auth.nonceRef.value.index < 0 || auth.nonceRef.value.index > 255 {
        return Err(NONCE_INDEX_OUT_OF_RANGE);
      }
      out[offset] := auth.nonceRef.value.index;
      assert out[..offset + 1] == head + [auth.nonceRef.value.index];
      offset := offset + 1;
      Set(out, offset, auth.nonceRef.value.value);
      offset := offset + KEY_BYTES;
      Regroup(head, [auth.nonceRef.value.index], auth.nonceRef.value.value);
      head := head + ([auth.nonceRef.value.index] + auth.nonceRef.value.value);
    } else {
      head := head + [];
    }
    assert out[..offset] == head;
    if auth.amount.Some? {
      var amount := WriteU64(out, offset, auth.amount.value);
      if amount.Err? {
        return Err(amount.code);
      }
      offset := offset + 8;
      head := head + U64Bytes(auth.amount.value);
    } else {
      head := head + [];
    }
    assert out[..offset] == head;
    Set(out, offset, auth.signature);
    assert out[..] == out[..offset + SIGNATURE_BYTES];
    r := Ok(out[..]);
  }

  lemma Regroup(a: seq<Byte>, b: seq<Byte>, c: seq<Byte>)
    ensures a + (b + c) == a + b + c
  {
  }

  method EncodeNonceReturn(payload: NonceReturnPayload) returns (r: Result<seq<Byte>>)
    ensures r == NonceReturnBytes(payload)
  {
    if payload.nonceIndex < 0 || payload.nonceIndex > 255 {
      return Err(NONCE_INDEX_OUT_OF_RANGE);
    }
    if |payload.signature| != SIGNATURE_BYTES {
      return Err(SIG_LENGTH);
    }
    var out := new Byte[ExpectedLength(NONCE_RETURN, NO_FLAGS)];
    var _ := WriteHeader(out, NONCE_RETURN, NO_FLAGS);
    out[3] := payload.nonceIndex;
    Set(out, 4, payload.newNonceValue);
    assert out[..36] == Ref.Header(Ref.NONCE_RETURN, 0) + [payload.nonceIndex] + payload.newNonceValue;
    Set(out, 36, payload.signature);
    assert out[..] == out[..36] + payload.signature;
    assert out[..] == NonceReturnBytes(payload).value;
    r := Ok(out[..]);
  }

  // --- the decoders --------------------------------------------------------------------------------

  /** Steps 2 to 4 of the check order. */
  function ReadType(bytes: seq<Byte>, expected: Option<PayloadType>): (r: Result<PayloadType>)
    ensures r.Ok? ==> |bytes| >= HEADER_BYTES && bytes[0] == VERSION && bytes[1] == TypeByte(r.value)
    ensures r.Ok? && expected.Some? ==> r.value == expected.value
  {
    if |bytes| < HEADER_BYTES then Err(WIRE_LENGTH_MISMATCH)
    else if bytes[0] != VERSION then Err(WIRE_VERSION_UNSUPPORTED)
    else
      match TypeOf(bytes[1])
      case None => Err(WIRE_UNKNOWN_TYPE)
      case Some(t) => if expected.Some? && t != expected.value then Err(WIRE_UNEXPECTED_TYPE) else Ok(t)
  }

  /** Steps 2 to 9: what is left after them is a payload of exactly its own length. */
  function ReadHeader(bytes: seq<Byte>, expected: PayloadType): (r: Result<WireFlags>)
    ensures r.Ok? ==> |bytes| == ExpectedLength(expected, r.value) && bytes[2] == FlagsToByte(r.value)
    ensures r.Ok? ==> bytes[..HEADER_BYTES] == [VERSION, TypeByte(expected), bytes[2]]
    ensures r.Ok? ==> !r.value.feePayerSeparate
  {
    var t := ReadType(bytes, Some(expected));
    if t.Err? then Err(t.code)
    else
      var b := bytes[2];
      if b >= 32 then Err(WIRE_RESERVED_FLAG_SET)
      else if Bit(b, 8) then Err(WIRE_FEE_PAYER_SEPARATE_UNSUPPORTED)
      else if (t.value.INTENT? && Bit(b, 16))
        || (t.value.NONCE_RETURN? && b != 0) then Err(WIRE_FLAG_NOT_ALLOWED_FOR_TYPE)
      else
        var flags := FlagsFromByte(b);
        FlagsByteRoundTrip(b);
        if t.value.STATIC_INTENT? && flags.lifetimeFresh then Err(WIRE_STATIC_CONSTRAINT)
        else if t.value.STATIC_INTENT? && !flags.amountInAuth then Err(WIRE_STATIC_CONSTRAINT)
        else if |bytes| != ExpectedLength(t.value, flags) then Err(WIRE_LENGTH_MISMATCH)
        else Ok(flags)
  }

  function CheckAgainstCache(mintCache: map<Key, MintRecord>, mint: Key, decimals: int,
                             flags: WireFlags): (r: Result<TokenProgram>)
    ensures r.Ok? ==> (r.value.Token2022? <==> flags.token2022)
  {
    if mint !in mintCache then Err(MINT_UNKNOWN)
    else if mintCache[mint].decimals != decimals then Err(MINT_DECIMALS_MISMATCH)
    else
      var tokenProgram := if flags.token2022 then Token2022 else SplToken;
      if mintCache[mint].tokenProgram != tokenProgram then Err(MINT_TOKEN_PROGRAM_MISMATCH) else Ok(tokenProgram)
  }

  function PeekPayloadType(bytes: seq<Byte>): Result<PayloadType> {
    ReadType(bytes, None)
  }

  function KeyAt(bytes: seq<Byte>, offset: nat): Key
    requires offset + KEY_BYTES <= |bytes|
  {
    bytes[offset..offset + KEY_BYTES]
  }

  function DecodeIntent(bytes: seq<Byte>, ctx: DecodeContext): (r: Result<Intent>) {
    var header := ReadHeader(bytes, INTENT);
    if header.Err? then Err(header.code)
    else
      var flags, merchant, mint, decimals := header.value, KeyAt(bytes, 3), KeyAt(bytes, 35), bytes[75];
      var amount := U64Value(bytes[67..75]);
      var tokenProgram := CheckAgainstCache(ctx.mintCache, mint, decimals, flags);
      if tokenProgram.Err? then Err(tokenProgram.code)
      else
        Ok(Intent(merchant, mint, decimals, Some(amount), if flags.lifetimeFresh then Fresh(KeyAt(bytes, 76), 0)
                  else DurableNonce,
                  flags.includeCreateAta, tokenProgram.value, merchant, false))
  }

  function DecodeStaticIntent(bytes: seq<Byte>, ctx: DecodeContext): (r: Result<Intent>) {
    var header := ReadHeader(bytes, STATIC_INTENT);
    if header.Err? then Err(header.code)
    else
      var flags, merchant, mint, decimals := header.value, KeyAt(bytes, 3), KeyAt(bytes, 35), bytes[67];
      var tokenProgram := CheckAgainstCache(ctx.mintCache, mint, decimals, flags);
      if tokenProgram.Err? then Err(tokenProgram.code)
      else
        Ok(Intent(merchant, mint, decimals, None, DurableNonce, flags.includeCreateAta, tokenProgram.value, merchant,
                  true))
  }

  function DecodeAuth(bytes: seq<Byte>, ctx: DecodeContext): (r: Result<Auth>) {
    var header := ReadHeader(bytes, AUTH);
    if header.Err? then Err(header.code)
    else if ctx.intentFlags.None? then Err(WIRE_FLAGS_MISMATCH)
    else if FlagsToByte(ctx.intentFlags.value) != bytes[2] then Err(WIRE_FLAGS_MISMATCH)
    else
      var flags, payer, offset := header.value, KeyAt(bytes, 3), 35;
      var nonceRef := if flags.lifetimeFresh then None else Some(NonceRef(bytes[offset], KeyAt(bytes, offset + 1)));
      var offset := if flags.lifetimeFresh then offset else offset + 1 + KEY_BYTES;
      var amount := if flags.amountInAuth then Some(U64Value(bytes[offset..offset + 8])) else None;
      var offset := if flags.amountInAuth then offset + 8 else offset;
      Ok(Auth(payer, nonceRef, amount, bytes[offset..offset + SIGNATURE_BYTES]))
  }

  function DecodeNonceReturn(bytes: seq<Byte>): (r: Result<NonceReturnPayload>) {
    var header := ReadHeader(bytes, NONCE_RETURN);
    if header.Err? then Err(header.code)
    else Ok(NonceReturnPayload(bytes[3], KeyAt(bytes, 4), bytes[36..36 + SIGNATURE_BYTES]))
  }
}
