/** A message run by the token program: who must have signed it, and what it moves. */
module Execution {
  import opened Common
  import opened Types
  import opened Canonical
  import Signatures
  import opened Sign

  type Balances = Account -> int

  /** A token account is its wallet's: only that wallet moves tokens out of it. */
  predicate MayMove(source: Account, authority: Account) {
    source.Ata? && authority == Wallet(source.owner)
  }

  function Moved(tokens: Balances, source: Account, destination: Account, amount: int): Balances {
    (a: Account) => tokens(a) - (if a == source then amount else 0) + (if a == destination then amount else 0)
  }

  /** What one instruction does to the balances, or None where its program refuses it. */
  function Apply(tokens: Balances, signers: set<Account>, e: Effect): Option<Balances> {
    match e
    case Advances(_, authority) => if authority in signers then Some(tokens) else None
    case CreatesAta(_, funder, _, _, _, _) => if funder in signers then Some(tokens) else None
    case Moves(_, source, _, destination, authority, amount, _) =>
      if authority in signers && MayMove(source, authority) && amount <= tokens(source)
      then Some(Moved(tokens, source, destination, amount)) else None
    case Foreign => None
  }

  /** All of a message's instructions, or nothing. */
  function Run(tokens: Balances, signers: set<Account>, effects: seq<Effect>): Option<Balances> {
    if effects == [] then Some(tokens)
    else
      match Apply(tokens, signers, effects[0])
      case None => None
      case Some(next) => Run(next, signers, effects[1..])
  }

  lemma {:induction false} RunSplits(tokens: Balances, signers: set<Account>, a: seq<Effect>, b: seq<Effect>)
    ensures Run(tokens, signers, a + b) ==
            match Run(tokens, signers, a) case None => None case Some(next) => Run(next, signers, b)
  {
    if a == [] {
      assert a + b == b;
    } else {
      assert (a + b)[1..] == a[1..] + b;
      if Apply(tokens, signers, a[0]).Some? {
        RunSplits(Apply(tokens, signers, a[0]).value, signers, a[1..], b);
      }
    }
  }

  lemma RunOne(tokens: Balances, signers: set<Account>, e: Effect)
    ensures Run(tokens, signers, [e]) == Apply(tokens, signers, e)
  {
    assert [e][1..] == [];
  }

  /**
    A canonical message goes through exactly when the payer signed it, the fee payer did where it funds
    an account, and the payer has the amount; and then it moves exactly the amount from the payer's token
    account to the merchant's and leaves every other balance alone.
   */
  lemma MessageMovesExactly(input: CanonicalInput, signers: set<Account>, tokens: Balances)
    requires BuildMessage(input).Ok?
    ensures var intent, after := input.intent, Run(tokens, signers, Effects(BuildMessage(input).value.instructions));
            var source, destination := Ata(input.payer, intent.mint, intent.tokenProgram),
            Ata(intent.merchant, intent.mint, intent.tokenProgram);
            && (after.Some? <==>
                && Wallet(input.payer) in signers && (intent.includeCreateAta ==> Wallet(intent.feePayer) in signers)
                && tokens(source) >= input.amount)
            && (after.Some? && input.payer != intent.merchant ==>
                  && after.value(source) == tokens(source) - input.amount
                  && after.value(destination) == tokens(destination) + input.amount)
            && (after.Some? ==> forall a :: a != source && a != destination ==> after.value(a) == tokens(a))
  {
    MessageSaysExactly(input);
    var intent := input.intent;
    var advance := if input.nonceRef.Some?
      then [Advances(NonceAccount(input.payer, input.nonceRef.value.index), Wallet(input.payer))] else [];
    var create := if intent.includeCreateAta
      then [CreatesAta(true, Wallet(intent.feePayer), Ata(intent.merchant, intent.mint, intent.tokenProgram),
                       Wallet(intent.merchant), Wallet(intent.mint), TokenProgramId(intent.tokenProgram))] else [];
    assert Effects(BuildMessage(input).value.instructions) == advance + create + [Transfer(input)];
    hide BuildMessage, SaysExactly, Effects;
    RunSplits(tokens, signers, advance + create, [Transfer(input)]);
    RunSplits(tokens, signers, advance, create);
    if advance != [] {
      RunOne(tokens, signers, advance[0]);
    }
    if create != [] {
      RunOne(tokens, signers, create[0]);
    }
    RunOne(tokens, signers, Transfer(input));
  }

  /**
    What a merchant accepts pays that merchant.  However the AUTH was made, once the merchant adds its own
    signature the accepted message runs if the payer has the amount, and moves exactly the amount accepted,
    which is the one expected, from the payer's account to the merchant's.
   */
  lemma AcceptedPaysTheMerchant(signed: set<Signatures.Signed>, intent: Intent, auth: Auth, expected: int,
                                tokens: Balances)
    requires VerifyAuth(signed, intent, auth, Some(expected)).Ok? && intent.merchant != auth.payer
    ensures var accepted := VerifyAuth(signed, intent, auth, Some(expected)).value;
            var after := Run(tokens, {Wallet(auth.payer), Wallet(intent.feePayer)},
                             Effects(accepted.message.instructions));
            var source, destination := Ata(auth.payer, intent.mint, intent.tokenProgram),
            Ata(intent.merchant, intent.mint, intent.tokenProgram);
            && (after.Some? <==> tokens(source) >= expected)
            && (after.Some? ==>
                  && after.value(source) == tokens(source) - expected
                  && after.value(destination) == tokens(destination) + expected
                  && forall a :: a != source && a != destination ==> after.value(a) == tokens(a))
  {
    hide BuildMessage, Run, Effects, ResolveAmount;
    WhatIsAccepted(signed, intent, auth, Some(expected));
    WhichAmount(intent, auth, Some(expected));
    var accepted := VerifyAuth(signed, intent, auth, Some(expected)).value;
    MessageMovesExactly(accepted.input, {Wallet(auth.payer), Wallet(intent.feePayer)}, tokens);
  }
}
