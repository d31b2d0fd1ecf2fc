/**
  The reference codec of the fixture generator: encoders as concatenations, and `Check`, the
  normative check order as one straight line of guards.  Written separately from the codec itself.
 */
module FixtureWire {
  import opened Common
  import opened Types

  datatype PayloadType = INTENT | STATIC_INTENT | AUTH | NONCE_RETURN

  datatype Entry = PeekPayloadType | Decode(payload: PayloadType)

  function TypeByte(t: PayloadType): Byte {
    match t
    case INTENT => 1
    case STATIC_INTENT => 2
    case AUTH => 3
    case NONCE_RETURN => 4
  }

  function Header(t: PayloadType, flags: Byte): seq<Byte> {
    [1, TypeByte(t), flags]
  }

  function EncodeIntent(flags: Byte, merchant: Key, mint: Key, amount: int, decimals: Byte,
                        blockhash: Option<Key>): (bytes: seq<Byte>)
    requires 0 <= amount <= U64_MAX
  {
    Header(INTENT, flags) + merchant + mint + U64Bytes(amount) + [decimals]
    + (match blockhash case None => [] case Some(hash) => hash)
  }

  function EncodeStaticIntent(flags: Byte, merchant: Key, mint: Key, decimals: Byte): (bytes: seq<Byte>) {
    Header(STATIC_INTENT, flags) + merchant + mint + [decimals]
  }

  function EncodeAuth(flags: Byte, payer: Key, nonce: Option<(Byte, Key)>, amount: Option<int>,
                      signature: seq<Byte>): (bytes: seq<Byte>)
    requires amount.Some? ==> 0 <= amount.value <= U64_MAX
  {
    Header(AUTH, flags) + payer
    + (match nonce case None => [] case Some(n) => [n.0] + n.1)
    + (match amount case None => [] case Some(a) => U64Bytes(a))
    + signature
  }

  function EncodeNonceReturn(nonceIndex: Byte, newNonceValue: Key, signature: seq<Byte>): (bytes: seq<Byte>) {
    Header(NONCE_RETURN, 0) + [nonceIndex] + newNonceValue + signature
  }

  /** `flags & (1 << bit) !== 0`. */
  predicate Flag(flags: Byte, bit: nat)
    requires bit < 8
  {
    flags / [1, 2, 4, 8, 16, 32, 64, 128][bit] % 2 == 1
  }

  function ExpectedLength(t: PayloadType, flags: Byte): nat {
    var isFresh := Flag(flags, 0);
    match t
    case INTENT => 76 + (if isFresh then 32 else 0)
    case STATIC_INTENT => 68
    case AUTH => 35 + (if isFresh then 0 else 33) + (if Flag(flags, 4) then 8 else 0) + 64
    case NONCE_RETURN => 100
  }

  /** The code of the first check that fails, or None. */
  function Check(entry: Entry, bytes: seq<Byte>, mintCache: map<Key, MintRecord>,
                 intentFlags: Byte): (r: Option<ErrorCode>) {
    if |bytes| < 3 then Some(WIRE_LENGTH_MISMATCH)
    else if bytes[0] != 1 then Some(WIRE_VERSION_UNSUPPORTED)
    else if !(1 <= bytes[1] <= 4) then Some(WIRE_UNKNOWN_TYPE)
    else if entry.PeekPayloadType? then None
    else if bytes[1] != TypeByte(entry.payload) then Some(WIRE_UNEXPECTED_TYPE)
    else
      var t, flags := entry.payload, bytes[2];
      if Flag(flags, 5) || Flag(flags, 6) || Flag(flags, 7) then Some(WIRE_RESERVED_FLAG_SET)
      else if Flag(flags, 3) then Some(WIRE_FEE_PAYER_SEPARATE_UNSUPPORTED)
      else if (t.INTENT? && Flag(flags, 4)) || (t.NONCE_RETURN? && flags != 0) then Some(WIRE_FLAG_NOT_ALLOWED_FOR_TYPE)
      else if t.STATIC_INTENT? && (Flag(flags, 0) || !Flag(flags, 4)) then Some(WIRE_STATIC_CONSTRAINT)
      else if |bytes| != ExpectedLength(t, flags) then Some(WIRE_LENGTH_MISMATCH)
      else if t.AUTH? then (if flags != intentFlags then Some(WIRE_FLAGS_MISMATCH) else None)
      else if t.NONCE_RETURN? then None
      else
        var mint: Key := bytes[35..67];
        if mint !in mintCache then Some(MINT_UNKNOWN)
        else if bytes[if t.INTENT? then 75 else 67] != mintCache[mint].decimals then Some(MINT_DECIMALS_MISMATCH)
        else if Flag(flags, 2) != mintCache[mint].tokenProgram.Token2022? then Some(MINT_TOKEN_PROGRAM_MISMATCH)
        else None
  }
}
