/**
  The canonical message both sides rebuild.  Derived addresses are ideal: distinct inputs derive
  distinct accounts.  A message stands for its compiled bytes, so compilation is injective, and it
  has no place for `isStatic` or the block height.
 */
module Canonical {
  import opened Common
  import opened Types

  datatype Account =
    | Wallet(key: Key)
    | Ata(owner: Key, mint: Key, tokenProgram: TokenProgram)
    | NonceAccount(payer: Key, index: int)
    | SystemProgram
    | AssociatedTokenProgram
    | TokenProgramId(tokenProgram: TokenProgram)
    | RecentBlockhashes

  datatype Instruction = Instruction(program: Account, accounts: seq<Account>, data: seq<Byte>)

  datatype Message = Message(feePayer: Account, lifetimeToken: Key, instructions: seq<Instruction>)

  const ADVANCE_NONCE_DATA: seq<Byte> := [4, 0, 0, 0]
  const TRANSFER_CHECKED: Byte := 12

  function NonceSeed(index: int): (r: Result<int>) {
    if 0 <= index <= 255 then Ok(index) else Err(NONCE_INDEX_OUT_OF_RANGE)
  }

  function AdvanceNonce(payer: Key, index: int): Instruction {
    Instruction(SystemProgram, [NonceAccount(payer, index), RecentBlockhashes, Wallet(payer)], ADVANCE_NONCE_DATA)
  }

  function CreateAta(intent: Intent): Instruction {
    Instruction(
      AssociatedTokenProgram,
      [Wallet(intent.feePayer), Ata(intent.merchant, intent.mint, intent.tokenProgram), Wallet(intent.merchant),
       Wallet(intent.mint), SystemProgram, TokenProgramId(intent.tokenProgram)],
      [1])
  }

  function TransferChecked(intent: Intent, payer: Key, amount: int): Instruction
    requires 0 <= amount <= U64_MAX && 0 <= intent.decimals <= 255
  {
    Instruction(
      TokenProgramId(intent.tokenProgram),
      [Ata(payer, intent.mint, intent.tokenProgram), Wallet(intent.mint),
       Ata(intent.merchant, intent.mint, intent.tokenProgram), Wallet(payer)],
      [TRANSFER_CHECKED] + U64Bytes(amount) + [intent.decimals])
  }

  /** The lifetime of the message: its token, and the instruction the durable path puts first. */
  function ApplyLifetime(input: CanonicalInput): Result<(Key, seq<Instruction>)> {
    match input.intent.lifetime
    case DurableNonce =>
      if input.nonceRef.None? then Err(INTERNAL_NOT_APPLICABLE)
      else
        var index := NonceSeed(input.nonceRef.value.index);
        if index.Err? then Err(index.code)
        else Ok((input.nonceRef.value.value, [AdvanceNonce(input.payer, index.value)]))
    case Fresh(blockhash, _) =>
      if input.nonceRef.Some? then Err(INTERNAL_NOT_APPLICABLE) else Ok((blockhash, []))
  }

  function BuildMessage(input: CanonicalInput): (r: Result<Message>) {
    var intent, amount := input.intent, input.amount;
    if amount < 0 || amount > U64_MAX then Err(CANON_AMOUNT_MISMATCH)
    else if intent.amount.Some? && intent.amount.value != amount then Err(CANON_AMOUNT_MISMATCH)
    else if intent.decimals < 0 || intent.decimals > 255 then Err(MINT_DECIMALS_MISMATCH)
    else
      var lifetime := ApplyLifetime(input);
      if lifetime.Err? then Err(lifetime.code)
      else
        var instructions := (if intent.includeCreateAta then [CreateAta(intent)] else [])
          + [TransferChecked(intent, input.payer, amount)];
        Ok(Message(Wallet(intent.feePayer), lifetime.value.0, lifetime.value.1 + instructions))
  }

  // --- what the chain makes of an instruction ------------------------------------------------------

  /** The three instructions a message may hold, as their programs read them. */
  datatype Effect =
    | Advances(account: Account, authority: Account)
    | CreatesAta(idempotent: bool, funder: Account, ata: Account, owner: Account, mint: Account, tokenProgram: Account)
    | Moves(tokenProgram: Account, source: Account, mint: Account, destination: Account, authority: Account,
            amount: int, decimals: int)
    | Foreign

  function EffectOf(i: Instruction): Effect {
    var a, data := i.accounts, i.data;
    if i.program == SystemProgram && data == [4, 0, 0, 0] && |a| == 3 && a[1] == RecentBlockhashes
      then Advances(a[0], a[2])
    else if i.program == AssociatedTokenProgram && |a| == 6 && a[4] == SystemProgram && (data == [0] || data == [1])
      then CreatesAta(data == [1], a[0], a[1], a[2], a[3], a[5])
    else if i.program.TokenProgramId? && |a| == 4 && |data| == 10 && data[0] == 12
      then Moves(i.program, a[0], a[1], a[2], a[3], U64Value(data[1..9]), data[9])
    else Foreign
  }

  function Effects(instructions: seq<Instruction>): seq<Effect> {
    seq(|instructions|, k requires 0 <= k < |instructions| => EffectOf(instructions[k]))
  }

  /** The one transfer an input stands for: out of the payer's account, under the payer's authority. */
  function Transfer(input: CanonicalInput): Effect {
    var intent := input.intent;
    Moves(TokenProgramId(intent.tokenProgram), Ata(input.payer, intent.mint, intent.tokenProgram), Wallet(intent.mint),
          Ata(intent.merchant, intent.mint, intent.tokenProgram), Wallet(input.payer), input.amount, intent.decimals)
  }

  /** The payer's nonce account moves on first, then the merchant's account is there, then the transfer. */
  predicate SaysExactly(m: Message, input: CanonicalInput) {
    var intent := input.intent;
    && m.feePayer == Wallet(intent.feePayer)
    && intent.lifetime.DurableNonce? == input.nonceRef.Some?
    && m.lifetimeToken == (if input.nonceRef.Some? then input.nonceRef.value.value else intent.lifetime.blockhash)
    && Effects(m.instructions) ==
       (if input.nonceRef.Some?
        then [Advances(NonceAccount(input.payer, input.nonceRef.value.index), Wallet(input.payer))] else [])
       + (if intent.includeCreateAta
          then [CreatesAta(true, Wallet(intent.feePayer), Ata(intent.merchant, intent.mint, intent.tokenProgram),
                           Wallet(intent.merchant), Wallet(intent.mint), TokenProgramId(intent.tokenProgram))] else [])
       + [Transfer(input)]
  }

  lemma TransferIsRead(input: CanonicalInput)
    requires BuildMessage(input).Ok?
    ensures EffectOf(TransferChecked(input.intent, input.payer, input.amount)) == Transfer(input)
  {
    var i := TransferChecked(input.intent, input.payer, input.amount);
    assert i.data[1..9] == U64Bytes(input.amount) && i.data[9] == input.intent.decimals;
    U64RoundTrip(input.amount);
    hide U64Bytes, U64Value;
  }

  /**
    What a built message does: it is paid for by the fee payer, lives by the nonce or the blockhash, and
    its programs read it as exactly the advance, the account creation and the transfer its input asks for.
   */
  lemma MessageSaysExactly(input: CanonicalInput)
    requires BuildMessage(input).Ok?
    ensures SaysExactly(BuildMessage(input).value, input)
  {
    BuiltParts(input);
    TransferIsRead(input);
    CreateIsRead(input.intent);
    if input.nonceRef.Some? {
      AdvanceIsRead(input.payer, input.nonceRef.value.index);
      EffectsOf([AdvanceNonce(input.payer, input.nonceRef.value.index)]);
    }
    EffectsOf([CreateAta(input.intent)]);
    EffectsOf([]);
    hide EffectOf, CreateAta, AdvanceNonce, TransferChecked, Effects, BuildMessage, Transfer;
  }

  /** The message's parts, each read on its own. */
  lemma BuiltParts(input: CanonicalInput)
    requires BuildMessage(input).Ok?
    ensures var m, intent := BuildMessage(input).value, input.intent;
            && m.feePayer == Wallet(intent.feePayer) && intent.lifetime.DurableNonce? == input.nonceRef.Some?
            && m.lifetimeToken ==
               (if input.nonceRef.Some? then input.nonceRef.value.value else intent.lifetime.blockhash)
            && 0 <= input.amount <= U64_MAX && 0 <= intent.decimals <= 255
            && Effects(m.instructions) ==
               Effects(if input.nonceRef.Some? then [AdvanceNonce(input.payer, input.nonceRef.value.index)] else [])
               + Effects(if intent.includeCreateAta then [CreateAta(intent)] else [])
               + [EffectOf(TransferChecked(intent, input.payer, input.amount))]
  {
    hide EffectOf, CreateAta, AdvanceNonce, TransferChecked, Effects;
    var advance := ApplyLifetime(input).value.1;
    var create := if input.intent.includeCreateAta then [CreateAta(input.intent)] else [];
    var transfer := TransferChecked(input.intent, input.payer, input.amount);
    EffectsSplit(advance, create + [transfer]);
    EffectsSplit(create, [transfer]);
    EffectsOf([transfer]);
  }

  lemma EffectsSplit(a: seq<Instruction>, b: seq<Instruction>)
    ensures Effects(a + b) == Effects(a) + Effects(b)
  {
  }

  lemma EffectsOf(a: seq<Instruction>)
    ensures |a| == 0 ==> Effects(a) == []
    ensures |a| == 1 ==> Effects(a) == [EffectOf(a[0])]
  {
  }

  lemma AdvanceIsRead(payer: Key, index: int)
    ensures EffectOf(AdvanceNonce(payer, index)) == Advances(NonceAccount(payer, index), Wallet(payer))
  {
  }

  lemma CreateIsRead(intent: Intent)
    ensures EffectOf(CreateAta(intent)) ==
            CreatesAta(true, Wallet(intent.feePayer), Ata(intent.merchant, intent.mint, intent.tokenProgram),
                       Wallet(intent.merchant), Wallet(intent.mint), TokenProgramId(intent.tokenProgram))
  {
  }

  /** The inputs that are refused, and as what. */
  lemma WhenBuildRefuses(input: CanonicalInput)
    ensures var r, intent := BuildMessage(input), input.intent;
            var amountOk := 0 <= input.amount <= 0xFFFF_FFFF_FFFF_FFFF 
                        && (intent.amount.Some? ==> intent.amount.value == input.amount);
            var decimalsOk := 0 <= intent.decimals <= 255;
            var lifetimeOk := intent.lifetime.DurableNonce? == input.nonceRef.Some?;
            var indexOk := input.nonceRef.Some? ==> 0 <= input.nonceRef.value.index <= 255;
            && (r.Ok? <==> amountOk && decimalsOk && lifetimeOk && indexOk)
            && (r == Err(CANON_AMOUNT_MISMATCH) <==> !amountOk)
            && (r == Err(MINT_DECIMALS_MISMATCH) <==> amountOk && !decimalsOk)
            && (r == Err(INTERNAL_NOT_APPLICABLE) <==> amountOk && decimalsOk && !lifetimeOk)
            && (r == Err(NONCE_INDEX_OUT_OF_RANGE) <==> amountOk && decimalsOk && lifetimeOk && !indexOk)
  {
  }

  /** The builder as the source runs it, pushing one instruction at a time. */
  method CompileCanonicalTransaction(input: CanonicalInput) returns (r: Result<Message>)
    ensures r == BuildMessage(input) && (r.Ok? ==> SaysExactly(r.value, input))
  {
    hide SaysExactly;
    if BuildMessage(input).Ok? {
      MessageSaysExactly(input);
    }
    var intent, amount := input.intent, input.amount;
    if amount < 0 || amount > U64_MAX {
      return Err(CANON_AMOUNT_MISMATCH);
    }
    if intent.amount.Some? && intent.amount.value != amount {
      return Err(CANON_AMOUNT_MISMATCH);
    }
    if intent.decimals < 0 || intent.decimals > 255 {
      return Err(MINT_DECIMALS_MISMATCH);
    }
    var instructions := [];
    if intent.includeCreateAta {
      instructions := instructions + [CreateAta(intent)];
    }
    instructions := instructions + [TransferChecked(intent, input.payer, amount)];
    assert instructions == (if intent.includeCreateAta then [CreateAta(intent)] else [])
           + [TransferChecked(intent, input.payer, amount)];
    var lifetime := ApplyLifetime(input);
    if lifetime.Err? {
      return Err(lifetime.code);
    }
    r := Ok(Message(Wallet(intent.feePayer), lifetime.value.0, lifetime.value.1 + instructions));
  }

  // --- what a message says -------------------------------------------------------------------------

  /** Everything about an input that reaches the message; `isStatic` and the block height do not. */
  datatype Essence = Essence(
    payer: Key,
    merchant: Key,
    feePayer: Key,
    mint: Key,
    tokenProgram: TokenProgram,
    decimals: int,
    amount: int,
    includeCreateAta: bool,
    lifetime: Lifetime,
    nonceRef: Option<NonceRef>)

  function EssenceOf(input: CanonicalInput): Essence {
    var intent := WithoutBlockHeight(input.intent);
    Essence(input.payer, intent.merchant, intent.feePayer, intent.mint, intent.tokenProgram, intent.decimals,
            input.amount, intent.includeCreateAta, intent.lifetime, input.nonceRef)
  }

  lemma TransferCheckedInjective(a: CanonicalInput, b: CanonicalInput)
    requires BuildMessage(a).Ok? && BuildMessage(b).Ok?
    requires TransferChecked(a.intent, a.payer, a.amount) == TransferChecked(b.intent, b.payer, b.amount)
    ensures a.payer == b.payer && a.intent.merchant == b.intent.merchant && a.intent.mint == b.intent.mint
    ensures a.intent.tokenProgram == b.intent.tokenProgram && a.intent.decimals == b.intent.decimals
            && a.amount == b.amount
  {
    var s, t := TransferChecked(a.intent, a.payer, a.amount), TransferChecked(b.intent, b.payer, b.amount);
    assert s.accounts[0] == t.accounts[0] && s.accounts[2] == t.accounts[2] && s.accounts[3] == t.accounts[3];
    assert s.data[1..9] == U64Bytes(a.amount) && t.data[1..9] == U64Bytes(b.amount);
    assert s.data[9] == a.intent.decimals && t.data[9] == b.intent.decimals;
    U64RoundTrip(a.amount);
    U64RoundTrip(b.amount);
  }

  /** Two inputs build one message exactly when they agree on everything but `isStatic` and the block height. */
  lemma MessageDeterminesInput(a: CanonicalInput, b: CanonicalInput)
    requires BuildMessage(a).Ok? && BuildMessage(b).Ok?
    ensures BuildMessage(a) == BuildMessage(b) <==> EssenceOf(a) == EssenceOf(b)
  {
    hide U64Bytes;
    var m, n := BuildMessage(a).value, BuildMessage(b).value;
    if m == n {
      var last := |m.instructions| - 1;
      assert m.instructions[last] == n.instructions[last];
      assert m.instructions[last] == TransferChecked(a.intent, a.payer, a.amount);
      assert n.instructions[last] == TransferChecked(b.intent, b.payer, b.amount);
      TransferCheckedInjective(a, b);
      assert m.instructions[0] == n.instructions[0];
      if a.nonceRef.Some? && b.nonceRef.Some? {
        assert m.instructions[0].accounts[0] == n.instructions[0].accounts[0];
      }
    }
  }
}
