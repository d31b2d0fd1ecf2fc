/** Every way in which one canonical message can differ from another, and the error each is reported as. */
module Tampering {
  import opened Common
  import opened Types
  import opened Canonical
  import opened Validate

  /** The error for a message that says `got` where `want` was expected. */
  function Named(got: Essence, want: Essence): ErrorCode {
    // An instruction the expected message has no program for.
    if (got.nonceRef.Some? && want.nonceRef.None?) || (got.includeCreateAta && !want.includeCreateAta)
      || got.tokenProgram != want.tokenProgram then CANON_INSTRUCTION_NOT_ALLOWED
    else if got.nonceRef.None? && want.nonceRef.Some? then CANON_INSTRUCTION_ORDER
    // Another nonce account.
    else if want.nonceRef.Some? && (got.payer != want.payer || got.nonceRef.value.index != want.nonceRef.value.index)
      then CANON_ACCOUNT_MISMATCH
    else if want.includeCreateAta && !got.includeCreateAta then CANON_INSTRUCTION_NOT_ALLOWED
    else if want.includeCreateAta && (got.merchant != want.merchant || got.mint != want.mint)
      then CANON_DESTINATION_MISMATCH
    // Another account pays for the creation.
    else if want.includeCreateAta && got.feePayer != want.feePayer then CANON_ACCOUNT_MISMATCH
    else if got.amount != want.amount || got.decimals != want.decimals then CANON_AMOUNT_MISMATCH
    else if got.merchant != want.merchant || got.mint != want.mint then CANON_DESTINATION_MISMATCH
    // Another payer, fee payer or lifetime.
    else CANON_ACCOUNT_MISMATCH
  }

  // --- one instruction against another -------------------------------------------------------------

  lemma AgainstAdvance(got: CanonicalInput, want: CanonicalInput, i: int, j: int, k: nat)
    ensures Compare(Resolve(AdvanceNonce(got.payer, i)), Resolve(AdvanceNonce(want.payer, j)), k)
            == if got.payer == want.payer && i == j then None else Some(OtherAccounts(k))
  {
    var g, w := Resolve(AdvanceNonce(got.payer, i)), Resolve(AdvanceNonce(want.payer, j));
    assert g.accounts[0] == Some(NonceAccount(got.payer, i)) && w.accounts[0] == Some(NonceAccount(want.payer, j));
  }

  lemma AgainstCreate(got: Intent, want: Intent, k: nat)
    requires got.tokenProgram == want.tokenProgram
    ensures Compare(Resolve(CreateAta(got)), Resolve(CreateAta(want)), k)
            == if got.merchant != want.merchant || got.mint != want.mint then Some(AtaDestination(k))
               else if got.feePayer != want.feePayer then Some(OtherAccounts(k)) else None
  {
    var g, w := Resolve(CreateAta(got)), Resolve(CreateAta(want));
    assert g.accounts[0] == Some(Wallet(got.feePayer)) && w.accounts[0] == Some(Wallet(want.feePayer));
  }

  lemma AgainstTransfer(got: CanonicalInput, want: CanonicalInput, k: nat)
    requires BuildMessage(got).Ok? && BuildMessage(want).Ok? && got.intent.tokenProgram == want.intent.tokenProgram
    ensures Compare(Resolve(TransferChecked(got.intent, got.payer, got.amount)),
                    Resolve(TransferChecked(want.intent, want.payer, want.amount)), k)
            == if got.amount != want.amount || got.intent.decimals != want.intent.decimals then Some(TransferData(k))
               else if got.intent.merchant != want.intent.merchant || got.intent.mint != want.intent.mint
                 then Some(TransferDestination(k))
               else if got.payer != want.payer then Some(OtherAccounts(k)) else None
  {
    TransferDataDetermines(got, want);
    hide U64Bytes;
    var g, w := Resolve(TransferChecked(got.intent, got.payer, got.amount)),
      Resolve(TransferChecked(want.intent, want.payer, want.amount));
    assert g.accounts[3] == Some(Wallet(got.payer)) && w.accounts[3] == Some(Wallet(want.payer));
  }

  lemma TransferAgainstCreate(got: CanonicalInput, want: Intent, k: nat)
    requires BuildMessage(got).Ok?
    ensures Compare(Resolve(TransferChecked(got.intent, got.payer, got.amount)), Resolve(CreateAta(want)), k)
            == Some(WrongKind(k))
  {
    hide U64Bytes;
  }

  // --- the whole message ---------------------------------------------------------------------------

  function Advance(input: CanonicalInput): seq<ResolvedInstruction> {
    if input.nonceRef.Some? then [Resolve(AdvanceNonce(input.payer, input.nonceRef.value.index))] else []
  }

  function Create(input: CanonicalInput): seq<ResolvedInstruction> {
    if input.intent.includeCreateAta then [Resolve(CreateAta(input.intent))] else []
  }

  function Transfers(input: CanonicalInput): seq<ResolvedInstruction>
    requires BuildMessage(input).Ok?
  {
    [Resolve(TransferChecked(input.intent, input.payer, input.amount))]
  }

  lemma Parts(input: CanonicalInput)
    requires BuildMessage(input).Ok?
    ensures Instructions(input) == Advance(input) + Create(input) + Transfers(input)
  {
    Layout(input);
    Built(input);
    hide BuildMessage, ResolveMessage, U64Bytes;
  }

  /** Where the parts stand. */
  lemma Placed(input: CanonicalInput)
    requires BuildMessage(input).Ok?
    ensures var i, first := Instructions(input), |Advance(input)|;
            && |i| == first + (if input.intent.includeCreateAta then 2 else 1)
            && (input.intent.includeCreateAta ==> i[first] == Resolve(CreateAta(input.intent)))
            && 0 <= input.amount <= U64_MAX && 0 <= input.intent.decimals <= 255
            && i[|i| - 1] == Resolve(TransferChecked(input.intent, input.payer, input.amount))
            && (first > 0 ==> first == 1 && i[0] == Advance(input)[0])
  {
    Parts(input);
    Built(input);
    hide Instructions, U64Bytes, Resolve, TransferChecked, CreateAta, AdvanceNonce, BuildMessage;
  }

  /** The programs a canonical message calls, one to an instruction. */
  function Programs(input: CanonicalInput): seq<Option<Account>> {
    (if input.nonceRef.Some? then [Some(SystemProgram)] else [])
    + (if input.intent.includeCreateAta then [Some(AssociatedTokenProgram)] else [])
    + [Some(TokenProgramId(input.intent.tokenProgram))]
  }

  lemma ProgramsAre(input: CanonicalInput)
    requires BuildMessage(input).Ok?
    ensures |Instructions(input)| == |Programs(input)|
    ensures forall k :: 0 <= k < |Programs(input)| ==> Instructions(input)[k].program == Programs(input)[k]
  {
    Parts(input);
    hide Instructions, U64Bytes;
  }

  predicate NeedsForeign(got: CanonicalInput, want: CanonicalInput) {
    || (got.nonceRef.Some? && want.nonceRef.None?) || (got.intent.includeCreateAta && !want.intent.includeCreateAta)
    || got.intent.tokenProgram != want.intent.tokenProgram
  }

  lemma ForeignExactly(got: CanonicalInput, want: CanonicalInput)
    ensures (exists k :: 0 <= k < |Programs(got)| && Programs(got)[k] !in Programs(want)) <==> NeedsForeign(got, want)
  {
    var g := Programs(got);
    if got.nonceRef.Some? {
      assert g[0] == Some(SystemProgram);
    }
    if got.intent.includeCreateAta {
      assert g[|g| - 2] == Some(AssociatedTokenProgram);
    }
    assert g[|g| - 1] == Some(TokenProgramId(got.intent.tokenProgram));
  }

  lemma ForeignIsFound(got: CanonicalInput, want: CanonicalInput)
    requires BuildMessage(got).Ok? && BuildMessage(want).Ok?
    ensures FirstForeign(Instructions(got), Instructions(want), 0).Some? <==> NeedsForeign(got, want)
  {
    ProgramsAre(got);
    ProgramsAre(want);
    ForeignExactly(got, want);
    hide Instructions, Programs, NeedsForeign;
    var g, w := Instructions(got), Instructions(want);
    forall k | 0 <= k < |g|
      ensures Allowed(w, g[k].program) <==> Programs(got)[k] in Programs(want)
    {
      if Programs(got)[k] in Programs(want) {
        var j :| 0 <= j < |w| && Programs(want)[j] == Programs(got)[k];
        assert w[j].program == g[k].program;
      }
    }
  }

  /** Where the comparison stands before account creation, and before the transfer. */
  lemma {:induction false} Skip(got: seq<ResolvedInstruction>, want: seq<ResolvedInstruction>, index: nat)
    requires index < |got| && index < |want|
    ensures CompareFrom(got, want, index) ==
            match Compare(got[index], want[index], index)
            case Some(difference) => difference
            case None => CompareFrom(got, want, index + 1)
  {
  }

  lemma AtTransfer(got: CanonicalInput, want: CanonicalInput, index: nat)
    requires BuildMessage(got).Ok? && BuildMessage(want).Ok? && got.intent.tokenProgram == want.intent.tokenProgram
    requires index + 1 == |Instructions(got)| == |Instructions(want)|
    ensures CodeOf(CompareFrom(Instructions(got), Instructions(want), index)) ==
            if got.amount != want.amount || got.intent.decimals != want.intent.decimals then CANON_AMOUNT_MISMATCH
            else if got.intent.merchant != want.intent.merchant || got.intent.mint != want.intent.mint
              then CANON_DESTINATION_MISMATCH
            else CANON_ACCOUNT_MISMATCH
  {
    hide Instructions, Compare, BuildMessage, Resolve, TransferChecked, Advance, CompareFrom;
    Placed(got);
    Placed(want);
    AgainstTransfer(got, want, index);
    LastDecides(Instructions(got), Instructions(want), index);
  }

  lemma LastDecides(got: seq<ResolvedInstruction>, want: seq<ResolvedInstruction>, index: nat)
    requires index + 1 == |got| == |want|
    ensures CompareFrom(got, want, index) ==
            match Compare(got[index], want[index], index)
            case Some(difference) => difference
            case None => OutsideInstructions
  {
    hide Compare;
  }

  /** From where both would create the merchant's account. */
  lemma AtCreate(got: CanonicalInput, want: CanonicalInput, index: nat)
    requires BuildMessage(got).Ok? && BuildMessage(want).Ok? && !NeedsForeign(got, want)
    requires index == |Advance(got)| == |Advance(want)|
    ensures index <= |Instructions(got)| && index <= |Instructions(want)|
    ensures CodeOf(CompareFrom(Instructions(got), Instructions(want), index)) ==
            if want.intent.includeCreateAta && !got.intent.includeCreateAta then CANON_INSTRUCTION_NOT_ALLOWED
            else if want.intent.includeCreateAta
              && (got.intent.merchant != want.intent.merchant || got.intent.mint != want.intent.mint)
              then CANON_DESTINATION_MISMATCH
            else if want.intent.includeCreateAta && got.intent.feePayer != want.intent.feePayer
              then CANON_ACCOUNT_MISMATCH
            else if got.amount != want.amount || got.intent.decimals != want.intent.decimals then CANON_AMOUNT_MISMATCH
            else if got.intent.merchant != want.intent.merchant || got.intent.mint != want.intent.mint
              then CANON_DESTINATION_MISMATCH
            else CANON_ACCOUNT_MISMATCH
  {
    hide Instructions, Compare, BuildMessage, Resolve, TransferChecked, CreateAta, Advance, CompareFrom;
    Placed(got);
    Placed(want);
    var g, w := Instructions(got), Instructions(want);
    if !want.intent.includeCreateAta {
      AtTransfer(got, want, index);
    } else {
      Skip(g, w, index);
      if got.intent.includeCreateAta {
        AgainstCreate(got.intent, want.intent, index);
        AtTransfer(got, want, index + 1);
      } else {
        TransferAgainstCreate(got, want.intent, index);
      }
    }
  }

  lemma AtAdvance(got: CanonicalInput, want: CanonicalInput)
    requires BuildMessage(got).Ok? && BuildMessage(want).Ok? && !NeedsForeign(got, want)
    requires got.nonceRef.Some? == want.nonceRef.Some?
    ensures CodeOf(CompareFrom(Instructions(got), Instructions(want), 0)) == Named(EssenceOf(got), EssenceOf(want))
  {
    hide Instructions, Compare, BuildMessage, Resolve, TransferChecked, CreateAta, CompareFrom, AdvanceNonce, EssenceOf;
    Placed(got);
    Placed(want);
    EssenceFields(got);
    EssenceFields(want);
    AtCreate(got, want, |Advance(got)|);
    if want.nonceRef.Some? {
      AgainstAdvance(got, want, got.nonceRef.value.index, want.nonceRef.value.index, 0);
      Skip(Instructions(got), Instructions(want), 0);
    }
  }

  lemma EssenceFields(input: CanonicalInput)
    ensures var e := EssenceOf(input);
            && e.payer == input.payer && e.merchant == input.intent.merchant && e.feePayer == input.intent.feePayer
            && e.mint == input.intent.mint && e.tokenProgram == input.intent.tokenProgram
            && e.decimals == input.intent.decimals && e.amount == input.amount && e.nonceRef == input.nonceRef
            && e.includeCreateAta == input.intent.includeCreateAta
  {
  }

  lemma FirstIsAdvance(input: CanonicalInput)
    requires BuildMessage(input).Ok?
    ensures |Instructions(input)| > 0 && (IsAdvanceNonce(Instructions(input)[0]) <==> input.nonceRef.Some?)
  {
    Parts(input);
    hide Instructions, U64Bytes;
  }

  /**
    Every tampering is named.  One canonical message put in the place of another passes exactly when the two
    say the same; and otherwise the error is the one for what they differ in.
   */
  lemma EveryTamperingIsNamed(input: CanonicalInput, expected: CanonicalInput)
    requires BuildMessage(input).Ok? && BuildMessage(expected).Ok?
    ensures AssertCanonical(BuildMessage(input).value, expected) ==
            if EssenceOf(input) == EssenceOf(expected) then Ok(())
            else Err(Named(EssenceOf(input), EssenceOf(expected)))
  {
    hide BuildMessage, EssenceOf, CompareFrom, FirstForeign, IsAdvanceNonce;
    MessageDeterminesInput(input, expected);
    ForeignIsFound(input, expected);
    FirstIsAdvance(input);
    FirstIsAdvance(expected);
    EssenceFields(input);
    EssenceFields(expected);
    if !NeedsForeign(input, expected) && input.nonceRef.Some? == expected.nonceRef.Some? {
      AtAdvance(input, expected);
    }
  }

  // --- any message at all --------------------------------------------------------------------------

  /** The error for an instruction `g` in the place of `w`, which it is not. */
  function NamedAt(g: ResolvedInstruction, w: ResolvedInstruction): ErrorCode {
    var isSystem, isCreation := w.program == Some(SystemProgram), w.program == Some(AssociatedTokenProgram);
    var isTransfer := !isSystem && !isCreation && w.data != [] && w.data[0] == 12;
    var sameFirst := g.data == w.data || (g.data != [] && w.data != [] && g.data[0] == w.data[0]);
    var sameKind := g.program == w.program && sameFirst && (isSystem ==> g.data == [4, 0, 0, 0]);
    var sameOwner := UndefinedAt(g.accounts, 1) == UndefinedAt(w.accounts, 1);
    var sameSecond := UndefinedAt(g.accounts, 2) == UndefinedAt(w.accounts, 2);
    if !sameKind then CANON_INSTRUCTION_NOT_ALLOWED
    else if isCreation && !(sameOwner && sameSecond) then CANON_DESTINATION_MISMATCH
    else if isTransfer && g.data != w.data then CANON_AMOUNT_MISMATCH
    else if isTransfer && !sameSecond then CANON_DESTINATION_MISMATCH
    else if g.data != w.data then CANON_INSTRUCTION_NOT_ALLOWED
    else CANON_ACCOUNT_MISMATCH
  }

  lemma DifferenceIsNamed(g: ResolvedInstruction, w: ResolvedInstruction, k: nat)
    requires g != w
    ensures Compare(g, w, k).Some? && CodeOf(Compare(g, w, k).value) == NamedAt(g, w)
  {
  }

  /**
    Whatever is put in the place of a canonical message, the error says what is wrong with it: nothing that
    can be read, a program the canonical one does not call, the advance of the nonce not first, and otherwise
    the first instruction that is too many, missing or another one.
   */
  lemma EveryMessageIsJudged(actual: Option<ResolvedMessage>, expected: CanonicalInput)
    requires BuildMessage(expected).Ok?
    ensures var want := Instructions(expected);
            var code := CodeOf(Explain(actual, Some(ResolveMessage(BuildMessage(expected).value))));
            if !Readable(actual) then code == CANON_ACCOUNT_MISMATCH
            else
              var got := actual.value.instructions.value;
              if !Allows(got, want) then code == CANON_INSTRUCTION_NOT_ALLOWED
              else if expected.nonceRef != None && !StartsWithAdvance(got) then code == CANON_INSTRUCTION_ORDER
              else if got == want then code == CANON_ACCOUNT_MISMATCH
              else exists k: nat :: FirstDifference(got, want, k)
                                    && code == if k == |want| then CANON_INSTRUCTION_NOT_ALLOWED
                                               else if k == |got| then CANON_ACCOUNT_MISMATCH
                                               else NamedAt(got[k], want[k])
  {
    hide BuildMessage, NamedAt, CompareFrom, FirstForeign, CodeOf, Explain, FirstDifference, IsAdvanceNonce;
    ExplainInTurn(actual, ResolveMessage(BuildMessage(expected).value));
    FirstIsAdvance(expected);
    if Readable(actual) {
      var got := actual.value.instructions.value;
      AllowsExactly(got, Instructions(expected));
      AdvanceIs(got);
      LoopIsNamed(got, expected);
    }
  }

  predicate Readable(actual: Option<ResolvedMessage>) {
    actual != None && actual.value.version == 0 && actual.value.instructions != None && actual.value.lookups == 0
  }

  predicate StartsWithAdvance(got: seq<ResolvedInstruction>) {
    got != [] && got[0].program == Some(SystemProgram) && got[0].data == [4, 0, 0, 0]
  }

  lemma AdvanceIs(got: seq<ResolvedInstruction>)
    ensures StartsWithAdvance(got) <==> got != [] && IsAdvanceNonce(got[0])
  {
  }

  /** The checks before the comparison, in their order. */
  lemma ExplainInTurn(actual: Option<ResolvedMessage>, canonical: ResolvedMessage)
    requires canonical.instructions.Some?
    ensures CodeOf(Explain(actual, Some(canonical))) ==
            if !Readable(actual) then CANON_ACCOUNT_MISMATCH
            else
              var got, want := actual.value.instructions.value, canonical.instructions.value;
              if FirstForeign(got, want, 0).Some? then CANON_INSTRUCTION_NOT_ALLOWED
              else if want != [] && IsAdvanceNonce(want[0]) && (got == [] || !IsAdvanceNonce(got[0]))
                then CANON_INSTRUCTION_ORDER
              else CodeOf(CompareFrom(got, want, 0))
  {
    hide FirstForeign, CompareFrom, IsAdvanceNonce;
  }

  predicate Allows(got: seq<ResolvedInstruction>, want: seq<ResolvedInstruction>) {
    forall g :: g in got ==> exists w :: w in want && w.program == g.program
  }

  lemma AllowsExactly(got: seq<ResolvedInstruction>, want: seq<ResolvedInstruction>)
    ensures Allows(got, want) <==> FirstForeign(got, want, 0).None?
  {
    hide FirstForeign;
    forall g | g in got
      ensures Allowed(want, g.program) <==> exists w :: w in want && w.program == g.program
    {
      if Allowed(want, g.program) {
        var k :| 0 <= k < |want| && want[k].program == g.program;
        assert want[k] in want;
      }
    }
    var foreign := FirstForeign(got, want, 0);
    if foreign.Some? {
      assert got[foreign.value] in got;
    }
  }

  lemma LoopIsNamed(got: seq<ResolvedInstruction>, expected: CanonicalInput)
    requires BuildMessage(expected).Ok?
    ensures var want := Instructions(expected);
            var code := CodeOf(CompareFrom(got, want, 0));
            if got == want then code == CANON_ACCOUNT_MISMATCH
            else exists k: nat :: FirstDifference(got, want, k)
                                  && code == if k == |want| then CANON_INSTRUCTION_NOT_ALLOWED
                                             else if k == |got| then CANON_ACCOUNT_MISMATCH
                                             else NamedAt(got[k], want[k])
  {
    hide BuildMessage, NamedAt, Compare, CompareFrom, ResolveMessage;
    var want := Instructions(expected);
    CanonicalDifferenceIsReal(got, expected);
    var r := CompareFrom(got, want, 0);
    if !r.OutsideInstructions? {
      var k: nat :| FirstDifference(got, want, k)
                    && (if k == |want| then r == Extra(k) else if k == |got| then r == Missing(k)
                        else Compare(got[k], want[k], k) == Some(r));
      NamedAtDifference(got, want, k, r);
    }
  }

  lemma NamedAtDifference(got: seq<ResolvedInstruction>, want: seq<ResolvedInstruction>, k: nat, r: Explanation)
    requires FirstDifference(got, want, k)
    requires if k == |want| then r == Extra(k) else if k == |got| then r == Missing(k)
             else Compare(got[k], want[k], k) == Some(r)
    ensures got != want
    ensures CodeOf(r) == if k == |want| then CANON_INSTRUCTION_NOT_ALLOWED
                         else if k == |got| then CANON_ACCOUNT_MISMATCH else NamedAt(got[k], want[k])
  {
    hide NamedAt, Compare;
    if k < |got| && k < |want| {
      DifferenceIsNamed(got[k], want[k], k);
    }
  }
}
