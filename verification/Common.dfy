/** The vocabulary every other module shares: results, error codes, bytes and 32-byte keys. */
module Common {

  datatype Option<+T> = None | Some(value: T)

  /** A value, or the code of the VadumError the source throws instead. */
  datatype Result<+T> = Ok(value: T) | Err(code: ErrorCode)

  datatype ErrorCode =
    | WIRE_VERSION_UNSUPPORTED
    | WIRE_RESERVED_FLAG_SET
    | WIRE_LENGTH_MISMATCH
    | WIRE_UNKNOWN_TYPE
    | WIRE_UNEXPECTED_TYPE
    | WIRE_FLAGS_MISMATCH
    | WIRE_STATIC_CONSTRAINT
    | WIRE_BASE45_INVALID
    | WIRE_FLAG_NOT_ALLOWED_FOR_TYPE
    | WIRE_FEE_PAYER_SEPARATE_UNSUPPORTED
    | WIRE_FEE_PAYER_IS_PAYER
    | WIRE_DUPLICATE_AUTH
    | MINT_UNKNOWN
    | MINT_DECIMALS_MISMATCH
    | MINT_TOKEN_PROGRAM_MISMATCH
    | CANON_INSTRUCTION_NOT_ALLOWED
    | CANON_ACCOUNT_MISMATCH
    | CANON_AMOUNT_MISMATCH
    | CANON_DESTINATION_MISMATCH
    | CANON_INSTRUCTION_ORDER
    | SIG_INVALID
    | SIG_LENGTH
    | SIG_FEE_PAYER_MISSING
    | NONCE_INDEX_OUT_OF_RANGE
    | NONCE_LEDGER_MISSING
    | NONCE_POOL_EXHAUSTED
    | NONCE_POOL_UNDERFUNDED
    | NONCE_RETURN_UNTRUSTED
    | LIMIT_RECEIPT_CAP
    | LIMIT_QUEUE_EXPOSURE
    | LIMIT_FAILED_SENDS
    | LIMIT_SEND_WINDOW_EXPIRED
    | LIMIT_PRECHECK_REQUIRED
    | LIMIT_PAYER_ALLOWANCE
    | SUBMIT_NONCE_STALE
    | SUBMIT_NONCE_ABSENT
    | SUBMIT_EXECUTION_FAILED
    | SUBMIT_ALREADY_PROCESSED
    | SUBMIT_BLOCKHASH_EXPIRED
    | SUBMIT_RPC_UNAVAILABLE
    | INTERNAL_NOT_APPLICABLE
      // An exception that is not a VadumError: the RPC client, the key-value store.
    | FOREIGN_EXCEPTION

  type Byte = b: int | 0 <= b < 256

  const KEY_BYTES: nat := 32
  const SIGNATURE_BYTES: nat := 64
  const U64_MAX: int := 0xFFFF_FFFF_FFFF_FFFF

  /** An address, a nonce value or a blockhash: 32 raw bytes, base58 left outside. */
  type Key = k: seq<Byte> | |k| == 32 witness seq(32, _ => 0)

  function Repeated(b: Byte, n: nat): (bytes: seq<Byte>)
    ensures |bytes| == n
  {
    seq(n, _ => b)
  }

  // --- little-endian integers --------------------------------------------------------------------

  function Pow256(n: nat): (p: nat)
    ensures p > 0
  {
    if n == 0 then 1 else 256 * Pow256(n - 1)
  }

  /** The low `n` bytes of `v`, least significant first. */
  function ToLittleEndian(v: nat, n: nat): (bytes: seq<Byte>)
    ensures |bytes| == n
  {
    if n == 0 then [] else [v % 256] + ToLittleEndian(v / 256, n - 1)
  }

  function FromLittleEndian(bytes: seq<Byte>): (v: nat)
    ensures v < Pow256(|bytes|)
  {
    if bytes == [] then 0 else bytes[0] + 256 * FromLittleEndian(bytes[1..])
  }

  lemma {:induction false} LittleEndianRoundTrip(v: nat, n: nat)
    requires v < Pow256(n)
    ensures FromLittleEndian(ToLittleEndian(v, n)) == v
  {
    if n > 0 {
      LittleEndianRoundTrip(v / 256, n - 1);
      assert ToLittleEndian(v, n)[1..] == ToLittleEndian(v / 256, n - 1);
    }
  }

  lemma {:induction false} LittleEndianBytes(bytes: seq<Byte>)
    ensures ToLittleEndian(FromLittleEndian(bytes), |bytes|) == bytes
  {
    if bytes != [] {
      LittleEndianBytes(bytes[1..]);
      assert bytes == [bytes[0]] + bytes[1..];
    }
  }

  lemma Pow256Eight()
    ensures Pow256(8) == U64_MAX + 1
  {
  }

  /** `setBigUint64(…, true)`. */
  function U64Bytes(v: int): (bytes: seq<Byte>)
    requires 0 <= v <= U64_MAX
    ensures |bytes| == 8
  {
    ToLittleEndian(v, 8)
  }

  /** `getBigUint64(…, true)`. */
  function U64Value(bytes: seq<Byte>): (v: int)
    requires |bytes| == 8
    ensures 0 <= v <= U64_MAX
  {
    Pow256Eight();
    FromLittleEndian(bytes)
  }

  lemma U64RoundTrip(v: int)
    requires 0 <= v <= U64_MAX
    ensures U64Value(U64Bytes(v)) == v
  {
    Pow256Eight();
    LittleEndianRoundTrip(v, 8);
  }

  lemma U64BytesRoundTrip(bytes: seq<Byte>)
    requires |bytes| == 8
    ensures U64Bytes(U64Value(bytes)) == bytes
  {
    LittleEndianBytes(bytes);
  }

  /** What eight bytes are worth, the least significant first. */
  function LittleEndian(b0: int, b1: int, b2: int, b3: int, b4: int, b5: int, b6: int, b7: int): int {
    b0 + 0x100 * b1 + 0x1_0000 * b2 + 0x100_0000 * b3 + 0x1_0000_0000 * b4 + 0x100_0000_0000 * b5
    + 0x1_0000_0000_0000 * b6 + 0x100_0000_0000_0000 * b7
  }

  /** Least significant byte first, each worth 256 times the one before it. */
  lemma U64IsLittleEndian(v: int)
    requires 0 <= v <= U64_MAX
    ensures var b := U64Bytes(v);
            v == LittleEndian(b[0], b[1], b[2], b[3], b[4], b[5], b[6], b[7])
  {
    U64RoundTrip(v);
    Places(U64Bytes(v));
  }

  lemma Places(b: seq<Byte>)
    requires |b| == 8
    ensures U64Value(b) == LittleEndian(b[0], b[1], b[2], b[3], b[4], b[5], b[6], b[7])
  {
    var b1, b2, b3, b4 := b[1..], b[1..][1..], b[1..][1..][1..], b[1..][1..][1..][1..];
    var b5, b6, b7 := b4[1..], b4[1..][1..], b4[1..][1..][1..];
    assert FromLittleEndian(b7) == b[7] by {
      assert b7[1..] == [] && FromLittleEndian(b7[1..]) == 0;
    }
    assert FromLittleEndian(b6) == b[6] + 256 * FromLittleEndian(b7);
    assert FromLittleEndian(b5) == b[5] + 256 * FromLittleEndian(b6);
    assert FromLittleEndian(b4) == b[4] + 256 * FromLittleEndian(b5);
    assert FromLittleEndian(b3) == b[3] + 256 * FromLittleEndian(b4);
    assert FromLittleEndian(b2) == b[2] + 256 * FromLittleEndian(b3);
    assert FromLittleEndian(b1) == b[1] + 256 * FromLittleEndian(b2);
  }

  // --- buffers ---------------------------------------------------------------------------------

  /** `out.set(bytes, offset)`. */
  method Set(out: array<Byte>, offset: nat, bytes: seq<Byte>)
    requires offset + |bytes| <= out.Length
    modifies out
    ensures out[..] == old(out[..offset]) + bytes + old(out[offset + |bytes|..])
    ensures out[..offset + |bytes|] == old(out[..offset]) + bytes
  {
    forall k | 0 <= k < |bytes| {
      out[offset + k] := bytes[k];
    }
  }
}
