/** The recovery statement a merchant signs after settlement, rebuilt by the payer from its own ledger. */
module NonceReturn {
  import opened Common
  import opened Types
  import opened Signatures

  datatype NonceReturnStatement = NonceReturnStatement(payer: Key, nonceIndex: int, spentAgainstValue: Key,
                                                       newNonceValue: Key)

  /** ASCII `vadum:nonce-return:v1`. */
  const DOMAIN: seq<Byte> := [118, 97, 100, 117, 109, 58, 110, 111, 110, 99, 101, 45, 114, 101, 116, 117, 114, 110, 58,
                              118, 49]

  /** The reference form: the fixture generator's concatenation of the five fields. */
  function StatementBytes(statement: NonceReturnStatement): (bytes: seq<Byte>)
    requires 0 <= statement.nonceIndex <= 255
    ensures |bytes| == 118
  {
    DOMAIN + statement.payer + [statement.nonceIndex] + statement.spentAgainstValue + statement.newNonceValue
  }

  function SigningBytes(statement: NonceReturnStatement): (r: Result<seq<Byte>>) {
    if 0 <= statement.nonceIndex <= 255 then Ok(StatementBytes(statement)) else Err(NONCE_INDEX_OUT_OF_RANGE)
  }

  /** The 118-byte buffer, filled field by field. */
  method NonceReturnSigningBytes(statement: NonceReturnStatement) returns (r: Result<seq<Byte>>)
    ensures r == SigningBytes(statement)
  {
    if statement.nonceIndex < 0 || statement.nonceIndex > 255 {
      return Err(NONCE_INDEX_OUT_OF_RANGE);
    }
    var out := new Byte[118];
    Set(out, 0, DOMAIN);
    Set(out, 21, statement.payer);
    assert out[..53] == DOMAIN + statement.payer;
    out[53] := statement.nonceIndex;
    Set(out, 54, statement.spentAgainstValue);
    assert out[..86] == DOMAIN + statement.payer + [statement.nonceIndex] + statement.spentAgainstValue;
    Set(out, 86, statement.newNonceValue);
    assert out[..] == StatementBytes(statement);
    r := Ok(out[..]);
  }

  /** What is signed, place by place: the tag in ASCII, the payer, the slot, the prior value and the new one. */
  lemma StatementLayout(statement: NonceReturnStatement)
    ensures SigningBytes(statement).Err? <==> !(0 <= statement.nonceIndex <= 255)
    ensures SigningBytes(statement).Err? ==> SigningBytes(statement) == Err(NONCE_INDEX_OUT_OF_RANGE)
    ensures SigningBytes(statement).Ok? ==>
              var bytes := SigningBytes(statement).value;
              && |bytes| == 118
              && (forall k :: 0 <= k < 21 ==> bytes[k] as int == "vadum:nonce-return:v1"[k] as int)
              && bytes[21..53] == statement.payer && bytes[53] as int == statement.nonceIndex
              && bytes[54..86] == statement.spentAgainstValue && bytes[86..118] == statement.newNonceValue
  {
    if SigningBytes(statement).Ok? {
      var tag := "vadum:nonce-return:v1";
      assert forall k :: 0 <= k < 21 ==> StatementBytes(statement)[k] == DOMAIN[k];
      assert tag[..7] == "vadum:n" && tag[7..14] == "once-re" && tag[14..21] == "turn:v1";
    }
  }

  /** No two statements share their bytes. */
  lemma StatementInjective(a: NonceReturnStatement, b: NonceReturnStatement)
    requires SigningBytes(a).Ok? && SigningBytes(b).Ok?
    ensures SigningBytes(a) == SigningBytes(b) <==> a == b
  {
    var x, y := StatementBytes(a), StatementBytes(b);
    assert x[21..53] == a.payer && x[53] == a.nonceIndex && x[54..86] == a.spentAgainstValue
           && x[86..118] == a.newNonceValue;
    assert y[21..53] == b.payer && y[53] == b.nonceIndex && y[54..86] == b.spentAgainstValue
           && y[86..118] == b.newNonceValue;
  }

  /**
    Payer side.  Only the payload's index, new value and signature come from outside; the payer, the
    merchant and the prior value are the ledger's own.
   */
  function VerifyNonceReturn(signed: set<Signed>, received: NonceReturnPayload, payer: Key, merchant: Key,
                             spentAgainstValue: Key): (r: Result<NonceReturnStatement>)
  {
    if received.newNonceValue == spentAgainstValue then Err(NONCE_RETURN_UNTRUSTED)
    else if |received.signature| != SIGNATURE_BYTES then Err(NONCE_RETURN_UNTRUSTED)
    else
      var statement := NonceReturnStatement(payer, received.nonceIndex, spentAgainstValue, received.newNonceValue);
      var bytes := SigningBytes(statement);
      if bytes.Err? then Err(NONCE_RETURN_UNTRUSTED)
      else if !Verifies(signed, merchant, Return(bytes.value), received.signature) then Err(NONCE_RETURN_UNTRUSTED)
      else Ok(statement)
  }

  /** `merchant` has signed no statement outside `statements`. */
  ghost predicate OnlySigned(signed: set<Signed>, merchant: Key, statements: iset<NonceReturnStatement>) {
    forall s :: s in signed && s.key == merchant && s.statement.Return? ==>
                  exists statement :: statement in statements && SigningBytes(statement) == Ok(s.statement.bytes)
  }

  /**
    A return verifies only when the recorded merchant signed exactly this payer, slot, recorded prior
    value and new value, and the value really changes.
   */
  lemma ReturnMeansSigned(signed: set<Signed>, received: NonceReturnPayload, payer: Key, merchant: Key,
                          spentAgainstValue: Key,
                          statements: iset<NonceReturnStatement>)
    requires VerifyNonceReturn(signed, received, payer, merchant, spentAgainstValue).Ok?
    requires OnlySigned(signed, merchant, statements)
    ensures NonceReturnStatement(payer, received.nonceIndex, spentAgainstValue, received.newNonceValue) in statements
    ensures received.newNonceValue != spentAgainstValue
  {
    var rebuilt := NonceReturnStatement(payer, received.nonceIndex, spentAgainstValue, received.newNonceValue);
    var s := Signed(merchant, Return(SigningBytes(rebuilt).value), received.signature);
    assert s in signed && s.statement.Return?;
    var statement :| statement in statements && SigningBytes(statement) == Ok(s.statement.bytes);
    StatementInjective(statement, rebuilt);
  }

  /** A return is refused for one reason only, and is accepted exactly when the recorded merchant signed these bytes. */
  lemma WhenAReturnVerifies(signed: set<Signed>, received: NonceReturnPayload, payer: Key, merchant: Key, prior: Key)
    ensures var r := VerifyNonceReturn(signed, received, payer, merchant, prior);
            var statement := NonceReturnStatement(payer, received.nonceIndex, prior, received.newNonceValue);
            && (r.Ok? <==>
                && received.newNonceValue != prior && |received.signature| == 64 && 0 <= received.nonceIndex <= 255
                && Signed(merchant, Return(StatementBytes(statement)), received.signature) in signed)
            && (r.Ok? ==> r.value == statement) && (r.Err? ==> r.code == NONCE_RETURN_UNTRUSTED)
  {
  }

  /** A merchant's genuine return, signed after settlement, is accepted by the payer it was issued to. */
  lemma GenuineReturnIsAccepted(signed: set<Signed>, statement: NonceReturnStatement, merchant: Key,
                                signature: seq<Byte>)
    requires SigningBytes(statement).Ok? && |signature| == SIGNATURE_BYTES
    requires Signed(merchant, Return(SigningBytes(statement).value), signature) in signed
    ensures VerifyNonceReturn(signed, NonceReturnPayload(statement.nonceIndex, statement.newNonceValue, signature),
                              statement.payer, merchant, statement.spentAgainstValue).Ok?
            <==> statement.newNonceValue != statement.spentAgainstValue
  {
  }
}
