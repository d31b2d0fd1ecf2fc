/** The strict whitelist: a message is the canonical one byte for byte, or the difference is named. */
module Validate {
  import opened Common
  import opened Types
  import opened Canonical

  /** A decoded message.  An account index past the static accounts resolves to no account at all. */
  datatype ResolvedInstruction = ResolvedInstruction(program: Option<Account>, accounts: seq<Option<Account>>,
                                                     data: seq<Byte>)

  datatype ResolvedMessage = ResolvedMessage(version: int, lookups: nat, instructions: Option<seq<ResolvedInstruction>>)

  /** One constructor per return statement of the source's `explainDifference`. */
  datatype Explanation =
    | DoesNotDecode
    | NotVersionZero
    | HasLookupTables
    | CanonicalDoesNotDecode
    | ForeignProgram(index: nat)
    | AdvanceNotFirst
    | Extra(index: nat)
    | Missing(index: nat)
    | WrongKind(index: nat)
    | AtaDestination(index: nat)
    | TransferData(index: nat)
    | TransferDestination(index: nat)
    | OtherData(index: nat)
    | OtherAccounts(index: nat)
    | OutsideInstructions

  function CodeOf(e: Explanation): ErrorCode {
    match e
    case DoesNotDecode => CANON_ACCOUNT_MISMATCH
    case NotVersionZero => CANON_ACCOUNT_MISMATCH
    case HasLookupTables => CANON_ACCOUNT_MISMATCH
    case CanonicalDoesNotDecode => CANON_ACCOUNT_MISMATCH
    case ForeignProgram(_) => CANON_INSTRUCTION_NOT_ALLOWED
    case AdvanceNotFirst => CANON_INSTRUCTION_ORDER
    case Extra(_) => CANON_INSTRUCTION_NOT_ALLOWED
    case Missing(_) => CANON_ACCOUNT_MISMATCH
    case WrongKind(_) => CANON_INSTRUCTION_NOT_ALLOWED
    case AtaDestination(_) => CANON_DESTINATION_MISMATCH
    case TransferData(_) => CANON_AMOUNT_MISMATCH
    case TransferDestination(_) => CANON_DESTINATION_MISMATCH
    case OtherData(_) => CANON_INSTRUCTION_NOT_ALLOWED
    case OtherAccounts(_) => CANON_ACCOUNT_MISMATCH
    case OutsideInstructions => CANON_ACCOUNT_MISMATCH
  }

  /** `array[index]`, undefined past the end. */
  function At<T>(s: seq<T>, index: nat): Option<T> {
    if index < |s| then Some(s[index]) else None
  }

  predicate IsAdvanceNonce(i: ResolvedInstruction) {
    i.program == Some(SystemProgram) && i.data == ADVANCE_NONCE_DATA
  }

  /** What the loop body says about two instructions at the same position, or None when they agree. */
  function Compare(g: ResolvedInstruction, w: ResolvedInstruction, index: nat): (r: Option<Explanation>)
    ensures r.None? ==> g == w
    ensures g == w ==> r.None? || (w.program == Some(SystemProgram) && !IsAdvanceNonce(w))
  {
    if g.program != w.program || At(g.data, 0) != At(w.data, 0)
      || (w.program == Some(SystemProgram) && !IsAdvanceNonce(g)) then Some(WrongKind(index))
    else if w.program == Some(AssociatedTokenProgram)
      && (UndefinedAt(g.accounts, 1) != UndefinedAt(w.accounts, 1)
          || UndefinedAt(g.accounts, 2) != UndefinedAt(w.accounts, 2)) then Some(AtaDestination(index))
    else
      var transfer := At(w.data, 0) == Some(TRANSFER_CHECKED) && w.program != Some(SystemProgram)
        && w.program != Some(AssociatedTokenProgram);
      if transfer && g.data != w.data then Some(TransferData(index))
      else if transfer && UndefinedAt(g.accounts, 2) != UndefinedAt(w.accounts, 2) then Some(TransferDestination(index))
      else if g.data != w.data then Some(OtherData(index))
      else if g.accounts != w.accounts then Some(OtherAccounts(index))
      else None
  }

  /** An account that is absent and one that is undefined are the same to `!==`. */
  function UndefinedAt(accounts: seq<Option<Account>>, index: nat): Option<Account> {
    if index < |accounts| then accounts[index] else None
  }

  predicate Allowed(want: seq<ResolvedInstruction>, program: Option<Account>) {
    exists k :: 0 <= k < |want| && want[k].program == program
  }

  /** `got.find(instruction => !allowed.has(instruction.program))`, at or after `from`. */
  function FirstForeign(got: seq<ResolvedInstruction>, want: seq<ResolvedInstruction>, from: nat): (r: Option<nat>)
    requires from <= |got|
    ensures r.Some? ==> from <= r.value < |got| && !Allowed(want, got[r.value].program)
    ensures forall k :: from <= k < (if r.Some? then r.value else |got|) ==> Allowed(want, got[k].program)
    decreases |got| - from
  {
    if from == |got| then None
    else if !Allowed(want, got[from].program) then Some(from)
    else FirstForeign(got, want, from + 1)
  }

  /** The comparison loop from `index` on. */
  function CompareFrom(got: seq<ResolvedInstruction>, want: seq<ResolvedInstruction>, index: nat): (r: Explanation)
    requires index <= |got| && index <= |want|
    decreases |got| - index
  {
    if index == |got| == |want| then OutsideInstructions
    else if index == |want| then Extra(index)
    else if index == |got| then Missing(index)
    else
      match Compare(got[index], want[index], index)
      case Some(difference) => difference
      case None => CompareFrom(got, want, index + 1)
  }

  function Explain(actual: Option<ResolvedMessage>, canonical: Option<ResolvedMessage>): (r: Explanation) {
    if actual.None? then DoesNotDecode
    else if actual.value.version != 0 || actual.value.instructions.None? then NotVersionZero
    else if actual.value.lookups > 0 then HasLookupTables
    else if canonical.None? || canonical.value.instructions.None? then CanonicalDoesNotDecode
    else
      var got, want := actual.value.instructions.value, canonical.value.instructions.value;
      var foreign := FirstForeign(got, want, 0);
      if foreign.Some? then ForeignProgram(foreign.value)
      else if |want| > 0 && IsAdvanceNonce(want[0]) && (|got| == 0 || !IsAdvanceNonce(got[0])) then AdvanceNotFirst
      else CompareFrom(got, want, 0)
  }

  method ExplainDifference(actual: Option<ResolvedMessage>, canonical: Option<ResolvedMessage>) returns (r: Explanation)
    ensures r == Explain(actual, canonical)
  {
    if actual.None? {
      return DoesNotDecode;
    }
    if actual.value.version != 0 || actual.value.instructions.None? {
      return NotVersionZero;
    }
    if actual.value.lookups > 0 {
      return HasLookupTables;
    }
    if canonical.None? || canonical.value.instructions.None? {
      return CanonicalDoesNotDecode;
    }
    var got, want := actual.value.instructions.value, canonical.value.instructions.value;
    var foreign := FirstForeign(got, want, 0);
    if foreign.Some? {
      return ForeignProgram(foreign.value);
    }
    if |want| > 0 && IsAdvanceNonce(want[0]) {
      if |got| == 0 || !IsAdvanceNonce(got[0]) {
        return AdvanceNotFirst;
      }
    }
    var index := 0;
    while index < |got| || index < |want|
      invariant 0 <= index <= |got| && index <= |want|
      invariant CompareFrom(got, want, index) == CompareFrom(got, want, 0)
      decreases |got| + |want| - 2 * index
    {
      if index >= |want| {
        return Extra(index);
      }
      if index >= |got| {
        return Missing(index);
      }
      var difference := Compare(got[index], want[index], index);
      if difference.Some? {
        return difference.value;
      }
      index := index + 1;
    }
    r := OutsideInstructions;
  }

  // --- what an explanation tells -------------------------------------------------------------------

  /** The position an explanation names is the first where the two instruction lists differ. */
  lemma {:induction false} ComparisonNamesFirstDifference(got: seq<ResolvedInstruction>,
                                                          want: seq<ResolvedInstruction>, index: nat)
    requires index <= |got| && index <= |want| && got[..index] == want[..index]
    ensures var r := CompareFrom(got, want, index);
            if r.OutsideInstructions? then got == want
            else exists k: nat :: DiffersFirstAt(got, want, k) &&
                   (if k == |want| then r == Extra(k) else if k == |got| then r == Missing(k)
                    else Compare(got[k], want[k], k) == Some(r))
    decreases |got| - index
  {
    if index == |got| == |want| {
      assert got == got[..index] && want == want[..index];
    } else if index == |got| || index == |want| {
      assert DiffersFirstAt(got, want, index);
    } else if Compare(got[index], want[index], index).Some? {
      assert DiffersFirstAt(got, want, index) || got[index] == want[index];
      if got[index] == want[index] {
        assert DiffersFirstAt(got, want, index);
      }
    } else {
      assert got[..index + 1] == got[..index] + [got[index]] && want[..index + 1] == want[..index] + [want[index]];
      ComparisonNamesFirstDifference(got, want, index + 1);
    }
  }

  /** The lists agree before `k`, and at `k` they differ or hold a system instruction no canonical message has. */
  ghost predicate DiffersFirstAt(got: seq<ResolvedInstruction>, want: seq<ResolvedInstruction>, k: nat) {
    && k <= |got| && k <= |want| && got[..k] == want[..k] && (k < |got| || k < |want|)
    && (k == |got| || k == |want| || got[k] != want[k]
        || (got[k].program == Some(SystemProgram) && !IsAdvanceNonce(got[k])))
  }

  /**
    When the explanation blames the fee payer, header or lifetime, the two instruction lists are
    identical in program, data and accounts: any difference among them is reported first, as itself.
   */
  lemma OutsideMeansSameInstructions(actual: Option<ResolvedMessage>, canonical: Option<ResolvedMessage>)
    requires Explain(actual, canonical).OutsideInstructions?
    ensures actual.Some? && actual.value.version == 0 && actual.value.lookups == 0
    ensures canonical.Some? && canonical.value.instructions.Some?
    ensures actual.value.instructions == canonical.value.instructions
  {
    ComparisonNamesFirstDifference(actual.value.instructions.value, canonical.value.instructions.value, 0);
  }

  // --- assertCanonical -----------------------------------------------------------------------------

  function Resolve(i: Instruction): ResolvedInstruction {
    ResolvedInstruction(Some(i.program), seq(|i.accounts|, k requires 0 <= k < |i.accounts| => Some(i.accounts[k])),
                        i.data)
  }

  function ResolveMessage(m: Message): ResolvedMessage {
    ResolvedMessage(0, 0, Some(seq(|m.instructions|,
                                   k requires 0 <= k < |m.instructions| => Resolve(m.instructions[k]))))
  }

  function AssertCanonical(message: Message, expected: CanonicalInput): (r: Result<()>) {
    var canonical := BuildMessage(expected);
    if canonical.Err? then Err(canonical.code)
    else if message == canonical.value then Ok(())
    else Err(CodeOf(Explain(Some(ResolveMessage(message)), Some(ResolveMessage(canonical.value)))))
  }

  /** A canonical message holds no system instruction but the advance of a nonce. */
  lemma CanonicalSystemIsAdvance(expected: CanonicalInput, k: nat)
    requires BuildMessage(expected).Ok?
    ensures var want := ResolveMessage(BuildMessage(expected).value).instructions.value;
            k < |want| && want[k].program == Some(SystemProgram) ==> IsAdvanceNonce(want[k])
  {
    hide U64Bytes;
  }

  /** The first place at which two lists differ. */
  ghost predicate FirstDifference(got: seq<ResolvedInstruction>, want: seq<ResolvedInstruction>, k: nat) {
    && k <= |got| && k <= |want| && got[..k] == want[..k] && (k < |got| || k < |want|)
    && (k == |got| || k == |want| || got[k] != want[k])
  }

  /** Against a canonical message, the position a difference is named at is the first where the two really differ. */
  lemma CanonicalDifferenceIsReal(got: seq<ResolvedInstruction>, expected: CanonicalInput)
    requires BuildMessage(expected).Ok?
    ensures var want := ResolveMessage(BuildMessage(expected).value).instructions.value;
            var r := CompareFrom(got, want, 0);
            if r.OutsideInstructions? then got == want
            else exists k: nat ::
                   && FirstDifference(got, want, k)
                   && (if k == |want| then r == Extra(k) else if k == |got| then r == Missing(k)
                       else Compare(got[k], want[k], k) == Some(r))
  {
    var want := ResolveMessage(BuildMessage(expected).value).instructions.value;
    var r := CompareFrom(got, want, 0);
    hide ResolveMessage, BuildMessage, CompareFrom, Compare;
    ComparisonNamesFirstDifference(got, want, 0);
    if !r.OutsideInstructions? {
      var k: nat :| DiffersFirstAt(got, want, k)
                    && (if k == |want| then r == Extra(k) else if k == |got| then r == Missing(k)
                        else Compare(got[k], want[k], k) == Some(r));
      CanonicalSystemIsAdvance(expected, k);
    }
  }

  /** A message that passes is built from an input that differs from the expected one in nothing it says. */
  lemma CanonicalMeansSameEssence(input: CanonicalInput, expected: CanonicalInput)
    requires BuildMessage(input).Ok? && BuildMessage(expected).Ok?
    ensures AssertCanonical(BuildMessage(input).value, expected).Ok? <==> EssenceOf(input) == EssenceOf(expected)
  {
    MessageDeterminesInput(input, expected);
  }

  /** Changing only the amount or the decimals of a canonical message is reported as an amount mismatch. */
  lemma TamperedAmountIsNamed(input: CanonicalInput, expected: CanonicalInput)
    requires BuildMessage(input).Ok? && BuildMessage(expected).Ok?
    requires EssenceOf(input) == EssenceOf(expected).(amount := input.amount, decimals := input.intent.decimals)
    requires EssenceOf(input) != EssenceOf(expected)
    ensures AssertCanonical(BuildMessage(input).value, expected) == Err(CANON_AMOUNT_MISMATCH)
  {
    MessageDeterminesInput(input, expected);
    ExplainTampered(input, expected);
  }

  /** Changing only the merchant is reported as a destination mismatch. */
  lemma TamperedMerchantIsNamed(input: CanonicalInput, expected: CanonicalInput)
    requires BuildMessage(input).Ok? && BuildMessage(expected).Ok?
    requires EssenceOf(input) == EssenceOf(expected).(merchant := input.intent.merchant)
    requires EssenceOf(input) != EssenceOf(expected)
    ensures AssertCanonical(BuildMessage(input).value, expected) == Err(CANON_DESTINATION_MISMATCH)
  {
    MessageDeterminesInput(input, expected);
    ExplainTampered(input, expected);
  }

  lemma Layout(input: CanonicalInput)
    requires BuildMessage(input).Ok?
    ensures ResolveMessage(BuildMessage(input).value).instructions.value ==
            (if input.intent.lifetime.DurableNonce?
             then [Resolve(AdvanceNonce(input.payer, input.nonceRef.value.index))] else [])
            + (if input.intent.includeCreateAta then [Resolve(CreateAta(input.intent))] else [])
            + [Resolve(TransferChecked(input.intent, input.payer, input.amount))]
  {
  }

  /** `a` and `b` differ at most in their merchant, amount and decimals. */
  predicate SameShape(a: CanonicalInput, b: CanonicalInput) {
    EssenceOf(a) == EssenceOf(b).(merchant := a.intent.merchant, amount := a.amount, decimals := a.intent.decimals)
  }

  predicate SameAmount(a: CanonicalInput, b: CanonicalInput) {
    a.amount == b.amount && a.intent.decimals == b.intent.decimals
  }

  lemma CompareCreateAta(a: CanonicalInput, b: CanonicalInput, k: nat)
    requires SameShape(a, b)
    ensures Compare(Resolve(CreateAta(a.intent)), Resolve(CreateAta(b.intent)), k)
            == if a.intent.merchant == b.intent.merchant then None else Some(AtaDestination(k))
  {
  }

  lemma CompareTransfer(a: CanonicalInput, b: CanonicalInput, k: nat)
    requires BuildMessage(a).Ok? && BuildMessage(b).Ok? && SameShape(a, b)
    ensures Compare(Resolve(TransferChecked(a.intent, a.payer, a.amount)),
                    Resolve(TransferChecked(b.intent, b.payer, b.amount)), k)
            == if !SameAmount(a, b) then Some(TransferData(k))
               else if a.intent.merchant != b.intent.merchant then Some(TransferDestination(k)) else None
  {
    TransferDataDetermines(a, b);
  }

  /** What a built message says of its input's fields. */
  lemma Built(input: CanonicalInput)
    requires BuildMessage(input).Ok?
    ensures 0 <= input.amount <= U64_MAX && 0 <= input.intent.decimals <= 255
    ensures input.intent.lifetime.DurableNonce? == input.nonceRef.Some?
  {
  }

  function Instructions(input: CanonicalInput): seq<ResolvedInstruction>
    requires BuildMessage(input).Ok?
  {
    ResolveMessage(BuildMessage(input).value).instructions.value
  }

  /**
    How two messages of one shape line up: an equal durable-nonce instruction, then account creation, then
    the transfer.
   */
  lemma Aligned(input: CanonicalInput, expected: CanonicalInput, first: nat, last: nat)
    requires BuildMessage(input).Ok? && BuildMessage(expected).Ok? && SameShape(input, expected)
    requires first == if input.intent.lifetime.DurableNonce? then 1 else 0
    requires last == if input.intent.includeCreateAta then first + 1 else first
    ensures var got, want := Instructions(input), Instructions(expected);
            && |got| == |want| == last + 1
            && (forall k :: 0 <= k < |want| ==> got[k].program == want[k].program)
            && (first == 0 ==> want[0].program != Some(SystemProgram))
            && (first == 1 ==> got[0] == want[0] && IsAdvanceNonce(want[0]))
            && (last > first ==>
                  && got[first] == Resolve(CreateAta(input.intent))
                  && want[first] == Resolve(CreateAta(expected.intent)))
            && got[last] == Resolve(TransferChecked(input.intent, input.payer, input.amount))
            && want[last] == Resolve(TransferChecked(expected.intent, expected.payer, expected.amount))
  {
    Layout(input);
    Layout(expected);
    Built(input);
    Built(expected);
    hide BuildMessage, ResolveMessage, U64Bytes;
  }

  /** The checks before the loop have nothing to say, and neither has the durable-nonce instruction. */
  lemma LoopDecides(actual: ResolvedMessage, canonical: ResolvedMessage, first: nat)
    requires actual.version == 0 && actual.lookups == 0 && actual.instructions.Some? && canonical.instructions.Some?
    requires var got, want := actual.instructions.value, canonical.instructions.value;
             && |got| == |want| > first && first <= 1
             && (forall k :: 0 <= k < |want| ==> got[k].program == want[k].program)
             && (first == 0 ==> want[0].program != Some(SystemProgram))
             && (first == 1 ==> got[0] == want[0] && IsAdvanceNonce(want[0]))
    ensures Explain(Some(actual), Some(canonical))
            == CompareFrom(actual.instructions.value, canonical.instructions.value, first)
  {
  }

  /** The loop stops at account creation when the merchants differ, else at the transfer. */
  lemma LoopVerdict(input: CanonicalInput, expected: CanonicalInput, first: nat, last: nat)
    requires BuildMessage(input).Ok? && BuildMessage(expected).Ok?
    requires SameShape(input, expected) && (input.intent.merchant != expected.intent.merchant
                                            || !SameAmount(input, expected))
    requires first == if input.intent.lifetime.DurableNonce? then 1 else 0
    requires last == if input.intent.includeCreateAta then first + 1 else first
    ensures |Instructions(input)| == |Instructions(expected)| == last + 1
    ensures CodeOf(CompareFrom(Instructions(input), Instructions(expected), first)) ==
            if input.intent.merchant != expected.intent.merchant && (last > first || SameAmount(input, expected))
            then CANON_DESTINATION_MISMATCH else CANON_AMOUNT_MISMATCH
  {
    hide BuildMessage, Instructions, Compare, Resolve, TransferChecked, CreateAta, SameShape, IsAdvanceNonce;
    Aligned(input, expected, first, last);
    CompareTransfer(input, expected, last);
    if last > first {
      CompareCreateAta(input, expected, first);
    }
    var got, want := Instructions(input), Instructions(expected);
    if last > first && input.intent.merchant == expected.intent.merchant {
      assert CompareFrom(got, want, first) == CompareFrom(got, want, last);
    }
  }

  /** Two canonical messages of one shape are told apart by account creation first, then by the transfer. */
  lemma ExplainTampered(input: CanonicalInput, expected: CanonicalInput)
    requires BuildMessage(input).Ok? && BuildMessage(expected).Ok?
    requires SameShape(input, expected) && (input.intent.merchant != expected.intent.merchant
                                            || !SameAmount(input, expected))
    ensures var code := CodeOf(Explain(Some(ResolveMessage(BuildMessage(input).value)),
                                       Some(ResolveMessage(BuildMessage(expected).value))));
            code == if input.intent.merchant != expected.intent.merchant
              && (input.intent.includeCreateAta || SameAmount(input, expected))
                    then CANON_DESTINATION_MISMATCH else CANON_AMOUNT_MISMATCH
  {
    hide BuildMessage, SameShape, CompareFrom, Resolve, Explain, IsAdvanceNonce;
    var first := if input.intent.lifetime.DurableNonce? then 1 else 0;
    var last := if input.intent.includeCreateAta then first + 1 else first;
    Aligned(input, expected, first, last);
    LoopDecides(ResolveMessage(BuildMessage(input).value), ResolveMessage(BuildMessage(expected).value), first);
    LoopVerdict(input, expected, first, last);
  }

  lemma TransferDataDetermines(a: CanonicalInput, b: CanonicalInput)
    requires BuildMessage(a).Ok? && BuildMessage(b).Ok?
    ensures TransferChecked(a.intent, a.payer, a.amount).data == TransferChecked(b.intent, b.payer, b.amount).data
            <==> a.amount == b.amount && a.intent.decimals == b.intent.decimals
  {
    var s, t := TransferChecked(a.intent, a.payer, a.amount).data, TransferChecked(b.intent, b.payer, b.amount).data;
    assert s[1..9] == U64Bytes(a.amount) && t[1..9] == U64Bytes(b.amount);
    assert s[9] == a.intent.decimals && t[9] == b.intent.decimals;
    U64RoundTrip(a.amount);
    U64RoundTrip(b.amount);
  }
}
