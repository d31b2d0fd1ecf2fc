/** What each operation makes of the ledger, field by field, from what the network and the store answered. */
module PoolLedgers {
  import opened Common
  import opened Types
  import opened Canonical
  import opened Signatures
  import opened NonceReturn
  import opened NonceCheck
  import opened PoolModel

  // --- what is written -----------------------------------------------------------------------------

  /**
    Whatever an operation decides, memory holds it from then on, the store holds it unless the write was
    rejected before storing, and the caller is answered exactly when the write resolved.  One that
    refuses leaves both ledgers as they are, but for one brought from the store to memory.
   */
  lemma WhatAnOperationWrites(cfg: Config, d: Device, op: Operation)
    requires !op.Load?
    ensures var (next, reply), held := Apply(cfg, d, OnLedger(op)), if d.current.Some? then d.current else d.stored;
            match held
            case None => next == d && reply == Err(NONCE_LEDGER_MISSING)
            case Some(state) =>
              match Operate(cfg, state, op)
              case Err(code) => next == Device(Some(state), d.stored) && reply == Err(code)
              case Ok((ledger, answer)) =>
                && next.current == Some(ledger)
                && next.stored == (if op.write == RejectedBeforeStoring then d.stored else Some(ledger))
                && reply == if op.write == Resolved then Ok(answer) else Err(FOREIGN_EXCEPTION)
  {
    hide Operate;
  }

  // --- recovery and creation -----------------------------------------------------------------------

  /** A slot as `recover` keeps it: an account of the payer's, found at its own place and not to be used. */
  predicate FoundAt(payer: Key, seen: Answers, s: PoolSlot, i: nat) {
    var address := NonceAccount(payer, i);
    && address in seen && seen[address].Initialized? && seen[address].authority == payer
    && s.index == i && s.address == address && s.value == Some(seen[address].value)
    && s.state == Unknown && s.spentAgainst == None && s.releasedAt == None
  }

  /** An account that `recover` must find. */
  predicate IsThere(payer: Key, seen: Answers, i: nat) {
    var address := NonceAccount(payer, i);
    address in seen && seen[address].Initialized? && seen[address].authority == payer
  }

  lemma {:induction false} ProbeFinds(payer: Key, seen: Answers, index: nat, maxProbe: int)
    requires Probe(payer, seen, index, maxProbe).Ok?
    ensures var slots := Probe(payer, seen, index, maxProbe).value;
            && (forall s :: s in slots ==> index <= s.index < maxProbe && FoundAt(payer, seen, s, s.index))
            && (forall i: nat :: index <= i < maxProbe && IsThere(payer, seen, i) ==>
                                   exists s :: s in slots && s.index == i)
            && (forall j, k :: 0 <= j < k < |slots| ==> slots[j].index < slots[k].index)
    decreases maxProbe - index
  {
    if index < maxProbe {
      ProbeFinds(payer, seen, index + 1, maxProbe);
      var slots, rest := Probe(payer, seen, index, maxProbe).value, Probe(payer, seen, index + 1, maxProbe).value;
      if IsThere(payer, seen, index) {
        assert slots[0].index == index && slots == [slots[0]] + rest;
      } else {
        assert slots == rest;
      }
      forall i: nat | index <= i < maxProbe && IsThere(payer, seen, i)
        ensures exists s :: s in slots && s.index == i
      {
        if i > index {
          var s :| s in rest && s.index == i;
          assert s in slots;
        }
      }
    }
  }

  /** Recovery and creation write like any other operation. */
  predicate Writes(d: Device, next: Device, reply: Result<Reply>, ledger: PoolState, write: Write) {
    && next.current == Some(ledger)
    && next.stored == (if write == RejectedBeforeStoring then d.stored else Some(ledger))
    && reply == if write == Resolved then Ok(Status(ledger)) else Err(FOREIGN_EXCEPTION)
  }

  /**
    Recovery finds every account and makes none up: the ledger it writes has a slot at `i` exactly when
    the probe reached `i` and saw an account of the payer's there, with the value it saw; its slots are in
    index order, its size is one past the last, and the log is the one there was.
   */
  lemma RecoveryFindsEveryAccount(cfg: Config, d: Device, maxProbe: int, seen: Answers, epoch: int, write: Write)
    requires RecoveredState(cfg, d, maxProbe, seen, epoch).Ok?
    ensures var (next, reply) := Apply(cfg, d, Recover(maxProbe, seen, epoch, write));
            && next.current.Some?
            && var state := next.current.value;
            && Writes(d, next, reply, state, write)
            && state.payer == cfg.payer && state.epoch == epoch && LogOf(Some(state)) == LogOf(Loaded(d))
            && |state.slots| > 0 && state.size == state.slots[|state.slots| - 1].index + 1
            && (forall s :: s in state.slots ==> s.index < maxProbe && FoundAt(cfg.payer, seen, s, s.index))
            && (forall i: nat :: i < maxProbe && IsThere(cfg.payer, seen, i) ==>
                                   exists s :: s in state.slots && s.index == i)
            && (forall j, k :: 0 <= j < k < |state.slots| ==> state.slots[j].index < state.slots[k].index)
  {
    ProbeFinds(cfg.payer, seen, 0, maxProbe);
    hide Probe, FoundAt, IsThere;
  }

  predicate AllAnswered(payer: Key, seen: Answers, maxProbe: int) {
    forall i: nat :: i < maxProbe && i <= 255 ==> NonceAccount(payer, i) in seen
  }

  /**
    Recovery fails where an account cannot be asked about, where the probe is to go past the last index
    there is, and where it finds nothing; and nowhere else.
   */
  lemma WhenRecoveryFails(cfg: Config, d: Device, maxProbe: int, seen: Answers, epoch: int)
    ensures var r, answered := RecoveredState(cfg, d, maxProbe, seen, epoch), AllAnswered(cfg.payer, seen, maxProbe);
            var some := exists i: nat :: i < maxProbe && IsThere(cfg.payer, seen, i);
            && (r == Err(FOREIGN_EXCEPTION) <==> !answered)
            && (r == Err(NONCE_INDEX_OUT_OF_RANGE) <==> answered && maxProbe > 256)
            && (r == Err(NONCE_LEDGER_MISSING) <==> answered && maxProbe <= 256 && !some)
            && (r.Ok? <==> answered && maxProbe <= 256 && some)
  {
    ProbeAnswers(cfg.payer, seen, 0, maxProbe);
    assert AllAnswered(cfg.payer, seen, maxProbe) <==> AnsweredFrom(cfg.payer, seen, 0, maxProbe);
    if Probe(cfg.payer, seen, 0, maxProbe).Ok? {
      ProbeFinds(cfg.payer, seen, 0, maxProbe);
      var slots := Probe(cfg.payer, seen, 0, maxProbe).value;
      hide Probe, FoundAt, IsThere;
      if slots != [] {
        FoundIsThere(cfg.payer, seen, slots[0]);
        assert slots[0] in slots;
      }
    }
    hide Probe;
  }

  lemma FoundIsThere(payer: Key, seen: Answers, s: PoolSlot)
    ensures FoundAt(payer, seen, s, s.index) ==> IsThere(payer, seen, s.index)
  {
  }

  predicate AnsweredFrom(payer: Key, seen: Answers, index: nat, maxProbe: int) {
    forall i: nat :: index <= i < maxProbe && i <= 255 ==> NonceAccount(payer, i) in seen
  }

  lemma {:induction false} ProbeAnswers(payer: Key, seen: Answers, index: nat, maxProbe: int)
    requires index <= 256
    ensures var r, answered := Probe(payer, seen, index, maxProbe), AnsweredFrom(payer, seen, index, maxProbe);
            && (r.Ok? <==> answered && (maxProbe <= 256 || maxProbe <= index))
            && (r.Err? ==> r.code == if answered then NONCE_INDEX_OUT_OF_RANGE else FOREIGN_EXCEPTION)
    decreases maxProbe - index
  {
    if index < maxProbe && index <= 255 {
      ProbeAnswers(payer, seen, index + 1, maxProbe);
      assert AnsweredFrom(payer, seen, index, maxProbe) <==>
             NonceAccount(payer, index) in seen && AnsweredFrom(payer, seen, index + 1, maxProbe);
    }
  }

  /** A new pool has one unspent slot for each index below its size, each on its own account, none with a value yet. */
  lemma CreationMakesEverySlot(cfg: Config, d: Device, size: int, key: Key, setup: Setup, epoch: int, write: Write)
    requires Created(cfg, d, size, key, setup, epoch).Ok?
    ensures var (next, reply) := Apply(cfg, d, Create(size, key, setup, epoch, write));
            && next.current.Some?
            && var state := next.current.value;
            && Writes(d, next, reply, state, write)
            && state.payer == cfg.payer && state.epoch == epoch && LogOf(Some(state)) == LogOf(Loaded(d))
            && state.size == size == |state.slots|
            && forall i :: 0 <= i < size ==>
                             state.slots[i] == PoolSlot(i, NonceAccount(cfg.payer, i), None, Unspent, None, None)
  {
  }

  /**
    Creation goes through exactly for a size from 1 to 256, the payer's own key, money for it, and a setup
    that landed.
   */
  lemma WhenCreationFails(cfg: Config, d: Device, size: int, key: Key, setup: Setup, epoch: int)
    ensures var r := Created(cfg, d, size, key, setup, epoch);
            && (r.Ok? <==> 1 <= size <= 256 && key == cfg.payer && setup == Landed)
            && (r == Err(NONCE_INDEX_OUT_OF_RANGE) <==> !(1 <= size <= 256))
            && (r == Err(CANON_ACCOUNT_MISMATCH) <==> 1 <= size <= 256 && key != cfg.payer)
            && (r == Err(NONCE_POOL_UNDERFUNDED) <==> 1 <= size <= 256 && key == cfg.payer && setup == Underfunded)
            && (r == Err(FOREIGN_EXCEPTION) <==>
                1 <= size <= 256 && key == cfg.payer && setup in {NotLanded, LandedUnconfirmed})
  {
  }

  /** A refresh reads every slot's account again and changes nothing but values. */
  lemma RefreshReadsEverySlot(cfg: Config, state: PoolState, seen: Answers, write: Write)
    ensures var r := Operate(cfg, state, Refresh(seen, write));
            && (r.Err? <==> exists s :: s in state.slots && s.address !in seen)
            && (r.Err? ==> r.code == FOREIGN_EXCEPTION)
            && (r.Ok? ==>
                  && r.value.0 == state.(slots := r.value.0.slots) && |r.value.0.slots| == |state.slots|
                  && forall k :: 0 <= k < |state.slots| ==>
                                   var s, account := state.slots[k], seen[state.slots[k].address];
                                   r.value.0.slots[k] ==
                                   s.(value := if account.Initialized? then Some(account.value) else None))
  {
    if Operate(cfg, state, Refresh(seen, write)).Err? {
      var k :| 0 <= k < |state.slots| && state.slots[k].address !in seen;
      assert state.slots[k] in state.slots;
    }
  }

  /**
    A return is accepted exactly when its slot is on record as spent and the recorded merchant signed that
    the slot moved on from the recorded value to the new one; otherwise it is untrusted, whatever is wrong.
   */
  lemma WhenAReturnIsAccepted(cfg: Config, state: PoolState, payload: NonceReturnPayload, signed: set<Signed>)
    requires Distinct(state.slots)
    ensures var r := ApplyReturn(cfg, state, payload, signed);
            && (r.Ok? <==> exists s :: s in state.slots && s.index == payload.nonceIndex
                                       && SignedBack(cfg, s, payload, signed))
            && (r.Err? ==> r.code == NONCE_RETURN_UNTRUSTED)
  {
    match Find(state.slots, payload.nonceIndex)
    case None =>
    case Some(k) =>
      var slot := state.slots[k];
      if slot.spentAgainst.Some? {
        var record := slot.spentAgainst.value;
        WhenAReturnVerifies(signed, payload, cfg.payer, record.merchant, record.value);
      }
      hide VerifyNonceReturn, StatementBytes;
      assert slot in state.slots;
      assert forall s :: s in state.slots && s.index == payload.nonceIndex ==> s == slot;
  }

  predicate SignedBack(cfg: Config, s: PoolSlot, payload: NonceReturnPayload, signed: set<Signed>) {
    && s.state == Spent && s.spentAgainst != None && s.spentAgainst.value.value != payload.newNonceValue
    && |payload.signature| == 64 && 0 <= payload.nonceIndex <= 255
    && Signed(s.spentAgainst.value.merchant,
              Return(StatementBytes(NonceReturnStatement(cfg.payer, payload.nonceIndex, s.spentAgainst.value.value,
                                                         payload.newNonceValue))), payload.signature) in signed
  }

  /**
    A nonce return that is accepted gives its slot the new value, unspent, with no record and no mark, and
    no other slot changes.
   */
  lemma ReturnRearmsItsSlot(cfg: Config, state: PoolState, payload: NonceReturnPayload, signed: set<Signed>)
    requires ApplyReturn(cfg, state, payload, signed).Ok? && Distinct(state.slots)
    ensures var next := ApplyReturn(cfg, state, payload, signed).value;
            && next == state.(slots := next.slots) && |next.slots| == |state.slots|
            && forall k :: 0 <= k < |state.slots| ==>
                             var s := state.slots[k];
                             if s.index == payload.nonceIndex then
                               && s.state == Spent && s.spentAgainst != None
                               && next.slots[k] ==
                                  PoolSlot(s.index, s.address, Some(payload.newNonceValue), Unspent, None, None)
                             else next.slots[k] == s
  {
  }

  predicate HasLamports(seen: Answers, s: PoolSlot) {
    s.address in seen && seen[s.address].Initialized? && seen[s.address].lamports != 0
  }

  /** `at` is where, among the slots, the accounts withdrawn from stand. */
  ghost predicate OneForEach(slots: seq<PoolSlot>, seen: Answers, withdrawals: seq<(Account, int)>, at: seq<nat>) {
    && |at| == |withdrawals| && (forall j, k :: 0 <= j < k < |at| ==> at[j] < at[k])
    && (forall j :: 0 <= j < |at| ==>
                      && at[j] < |slots| && HasLamports(seen, slots[at[j]])
                      && withdrawals[j] == (slots[at[j]].address, seen[slots[at[j]].address].lamports))
    && (forall k :: 0 <= k < |slots| && HasLamports(seen, slots[k]) ==> k in at)
  }

  /** `close` withdraws once from each account that holds lamports, in slot order, and all it holds. */
  lemma {:induction false} CloseWithdrawsEverything(slots: seq<PoolSlot>, seen: Answers) returns (at: seq<nat>)
    requires AllRead(slots, seen)
    ensures OneForEach(slots, seen, Withdrawals(slots, seen), at)
  {
    if slots == [] {
      at := [];
    } else {
      var n := |slots| - 1;
      var before, account := slots[..n], seen[slots[n].address];
      var earlier := CloseWithdrawsEverything(before, seen);
      at := earlier + if HasLamports(seen, slots[n]) then [n] else [];
      var paid := if HasLamports(seen, slots[n]) then [(slots[n].address, seen[slots[n].address].lamports)] else [];
      assert Withdrawals(slots, seen) == Withdrawals(before, seen) + paid;
      hide Withdrawals;
      OneMoreAccount(slots, seen, Withdrawals(before, seen), earlier, paid);
    }
  }

  lemma OneMoreAccount(slots: seq<PoolSlot>, seen: Answers, withdrawals: seq<(Account, int)>, at: seq<nat>,
                       paid: seq<(Account, int)>)
    requires slots != [] && OneForEach(slots[..|slots| - 1], seen, withdrawals, at)
    requires var s := slots[|slots| - 1];
             paid == if HasLamports(seen, s) then [(s.address, seen[s.address].lamports)] else []
    ensures OneForEach(slots, seen, withdrawals + paid,
                       at + if HasLamports(seen, slots[|slots| - 1]) then [|slots| - 1] else [])
  {
    var n := |slots| - 1;
    assert forall k :: 0 <= k < n ==> slots[..n][k] == slots[k];
    hide HasLamports;
  }

  /** What comes back is the sum: each withdrawal counts once, wherever it stands. */
  lemma {:induction false} RefundIsTheSum(withdrawals: seq<(Account, int)>, k: nat)
    requires k < |withdrawals|
    ensures Lamports([]) == 0
    ensures Lamports(withdrawals) == withdrawals[k].1 + Lamports(withdrawals[..k] + withdrawals[k + 1..])
  {
    var n := |withdrawals| - 1;
    if k == n {
      assert withdrawals[..k] + withdrawals[k + 1..] == withdrawals[..n];
    } else {
      var head, rest := withdrawals[..n], withdrawals[..k] + withdrawals[k + 1..];
      RefundIsTheSum(head, k);
      assert rest[..|rest| - 1] == head[..k] + head[k + 1..];
    }
  }

  /**
    `close` is the key owner's alone and needs the money for its fee and an answer about every account; where
    there is anything to withdraw, the withdrawal must have landed.
   */
  lemma WhenCloseFails(cfg: Config, state: PoolState, key: Key, seen: Answers, setup: Setup, write: Write)
    ensures var r, all := Operate(cfg, state, Close(key, seen, setup, write)),
            forall s :: s in state.slots ==> s.address in seen;
            var some := exists s :: s in state.slots && HasLamports(seen, s);
            && (r == Err(CANON_ACCOUNT_MISMATCH) <==> key != cfg.payer)
            && (r == Err(NONCE_POOL_UNDERFUNDED) <==> key == cfg.payer && setup == Underfunded)
            && (r == Err(FOREIGN_EXCEPTION) <==>
                key == cfg.payer && setup != Underfunded && (!all || (some && setup != Landed)))
            && (r.Ok? <==> key == cfg.payer && setup != Underfunded && all && (some ==> setup == Landed))
  {
    hide Withdrawals, Lamports, ClosedSlots;
    if AllRead(state.slots, seen) {
      forall k | 0 <= k < |state.slots|
        ensures Withdrawn(state.slots[k], seen) <==> HasLamports(seen, state.slots[k])
      {
      }
      hide Withdrawn, HasLamports;
      if NeedsWithdrawal(state.slots, seen) {
        var k :| 0 <= k < |state.slots| && Withdrawn(state.slots[k], seen);
        assert state.slots[k] in state.slots;
      }
    } else {
      var k :| 0 <= k < |state.slots| && state.slots[k].address !in seen;
      assert state.slots[k] in state.slots;
    }
  }

  /** `close` leaves every slot on record, unknown, with nothing that could be used, and answers what it withdrew. */
  lemma CloseForgetsEverySlot(cfg: Config, state: PoolState, key: Key, seen: Answers, setup: Setup, write: Write)
    requires Operate(cfg, state, Close(key, seen, setup, write)).Ok?
    ensures var (next, reply) := Operate(cfg, state, Close(key, seen, setup, write)).value;
            && AllRead(state.slots, seen) && reply == Refunded(Lamports(Withdrawals(state.slots, seen)))
            && next == state.(slots := next.slots) && |next.slots| == |state.slots| && key == cfg.payer
            && forall k :: 0 <= k < |state.slots| ==>
                             var s := state.slots[k];
                             next.slots[k] == PoolSlot(s.index, s.address, None, Unknown, None, None)
  {
  }
}
