/** The pool as the source runs it: one object whose ledger is replaced by every operation. */
module PoolObject {
  import opened Common
  import opened Types
  import opened Canonical
  import opened Signatures
  import opened NonceReturn
  import opened SpendLog
  import opened PoolModel

  function Prefixed(found: seq<PoolSlot>, rest: Result<seq<PoolSlot>>): Result<seq<PoolSlot>> {
    match rest case Ok(slots) => Ok(found + slots) case Err(code) => Err(code)
  }

  /** One turn of `recover`. */
  lemma ProbeStep(payer: Key, seen: Answers, index: nat, maxProbe: int, found: seq<PoolSlot>)
    requires index < maxProbe && index <= 255 && NonceAccount(payer, index) in seen
    ensures var account := seen[NonceAccount(payer, index)];
            var here := if account.Initialized? && account.authority == payer
                        then [PoolSlot(index, NonceAccount(payer, index), Some(account.value), Unknown, None, None)]
                          else [];
            Prefixed(found, Probe(payer, seen, index, maxProbe))
              == Prefixed(found + here, Probe(payer, seen, index + 1, maxProbe))
  {
    var rest := Probe(payer, seen, index + 1, maxProbe);
    if rest.Ok? {
      assert forall here: seq<PoolSlot> :: found + (here + rest.value) == (found + here) + rest.value;
      assert found + rest.value == (found + []) + rest.value;
    }
  }

  /** One turn of `reconcile`, on its three lists. */
  lemma WithStep(cfg: Config, slots: seq<PoolSlot>, seen: Answers, now: int, k: nat)
    requires k < |slots| && ReconcileRead(slots[..k + 1], seen) && ReconcileRead(slots[..k], seen)
    ensures forall verdicts ::
              With(cfg, slots[..k + 1], seen, now, verdicts) ==
              With(cfg, slots[..k], seen, now, verdicts)
                + (if VerdictOn(cfg, slots[k], seen, now) in verdicts then [slots[k].index] else [])
  {
    var head := slots[..k + 1];
    assert head[..k] == slots[..k] && head[k] == slots[k];
  }

  lemma WithdrawalStep(slots: seq<PoolSlot>, slot: PoolSlot, seen: Answers)
    requires AllRead(slots, seen) && slot.address in seen
    ensures AllRead(slots + [slot], seen)
    ensures var lamports := LamportsRead(seen, slot.address);
            Withdrawals(slots + [slot], seen) ==
            Withdrawals(slots, seen) + if lamports != 0 then [(slot.address, lamports)] else []
  {
    assert (slots + [slot])[..|slots|] == slots;
  }

  lemma OneMoreWithdrawn(withdrawals: seq<(Account, int)>, w: (Account, int))
    ensures Lamports(withdrawals + [w]) == Lamports(withdrawals) + w.1
  {
    assert (withdrawals + [w])[..|withdrawals|] == withdrawals;
  }

  lemma {:induction false} WithdrawsExactlyWhenNeeded(slots: seq<PoolSlot>, seen: Answers)
    requires AllRead(slots, seen)
    ensures Withdrawals(slots, seen) != [] <==> NeedsWithdrawal(slots, seen)
  {
    if slots != [] {
      var head := slots[..|slots| - 1];
      WithdrawsExactlyWhenNeeded(head, seen);
      if NeedsWithdrawal(slots, seen) && !Withdrawn(slots[|slots| - 1], seen) {
        var k :| 0 <= k < |slots| && Withdrawn(slots[k], seen);
        assert head[k] == slots[k];
      }
      if NeedsWithdrawal(head, seen) {
        var k :| 0 <= k < |head| && Withdrawn(head[k], seen);
        assert Withdrawn(slots[k], seen);
      }
    }
  }

  lemma NothingWith(cfg: Config, slots: seq<PoolSlot>, seen: Answers, now: int)
    ensures forall verdicts :: With(cfg, slots[..0], seen, now, verdicts) == []
    ensures ReconciledSlots(cfg, slots[..0], seen, now) + slots[0..] == slots
  {
  }

  /** One turn of `reconcile`, on the ledger: replacing the slot at `k` leaves every other slot alone. */
  lemma ReconcileStep(cfg: Config, original: PoolState, slots: seq<PoolSlot>, seen: Answers, now: int, k: nat)
    requires k < |slots| && Distinct(slots) && ReconcileRead(slots[..k], seen)
    requires Reconcilable(slots[k]) ==> slots[k].address in seen
    ensures ReconcileRead(slots[..k + 1], seen)
    ensures var state := original.(slots := ReconciledSlots(cfg, slots[..k], seen, now) + slots[k..]);
            var next := original.(slots := ReconciledSlots(cfg, slots[..k + 1], seen, now) + slots[k + 1..]);
            && WithSlot(state, ReconciledSlot(cfg, slots[k], seen, now)) == next
            && (VerdictOn(cfg, slots[k], seen, now) in {Untouched, Pending} ==> state == next)
  {
  }

  /** The loop of `refresh`. */
  method ReadAgain(slots: seq<PoolSlot>, seen: Answers) returns (r: Result<seq<PoolSlot>>)
    ensures r == if AllRead(slots, seen) then Ok(RefreshSlots(slots, seen)) else Err(FOREIGN_EXCEPTION)
  {
    var again: seq<PoolSlot> := [];
    for k := 0 to |slots|
      invariant AllRead(slots[..k], seen)
      invariant again == RefreshSlots(slots[..k], seen)
    {
      var slot := slots[k];
      if slot.address !in seen {
        return Err(FOREIGN_EXCEPTION);
      }
      again := again + [slot.(value := ValueRead(seen, slot.address))];
    }
    assert slots[..|slots|] == slots;
    r := Ok(again);
  }

  /** The loop of `recover`. */
  method ProbeAll(payer: Key, seen: Answers, maxProbe: int) returns (r: Result<seq<PoolSlot>>)
    ensures r == Probe(payer, seen, 0, maxProbe)
  {
    var slots: seq<PoolSlot> := [];
    var index := 0;
    assert Probe(payer, seen, 0, maxProbe).Ok?
           ==> [] + Probe(payer, seen, 0, maxProbe).value == Probe(payer, seen, 0, maxProbe).value;
    while index < maxProbe
      invariant index <= 256
      invariant Probe(payer, seen, 0, maxProbe) == Prefixed(slots, Probe(payer, seen, index, maxProbe))
      decreases maxProbe - index
    {
      if index > 255 {
        return Err(NONCE_INDEX_OUT_OF_RANGE);
      }
      var address := NonceAccount(payer, index);
      if address !in seen {
        return Err(FOREIGN_EXCEPTION);
      }
      ProbeStep(payer, seen, index, maxProbe, slots);
      var account := seen[address];
      if account.Initialized? && account.authority == payer {
        slots := slots + [PoolSlot(index, address, Some(account.value), Unknown, None, None)];
      } else {
        assert slots + [] == slots;
      }
      index := index + 1;
    }
    assert slots + [] == slots;
    r := Ok(slots);
  }

  /** The loop of `close`: what to withdraw, and how much comes back. */
  method CollectWithdrawals(slots: seq<PoolSlot>, seen: Answers) returns (r: Result<(seq<(Account, int)>, int)>)
    ensures r == if AllRead(slots, seen) then Ok((Withdrawals(slots, seen), Refund(slots, seen)))
                 else Err(FOREIGN_EXCEPTION)
  {
    hide Withdrawals, Lamports;
    var withdrawals: seq<(Account, int)> := [];
    var refundedLamports := 0;
    NothingWithdrawn(slots, seen);
    for k := 0 to |slots|
      invariant AllRead(slots[..k], seen)
      invariant withdrawals == Withdrawals(slots[..k], seen) && refundedLamports == Lamports(withdrawals)
    {
      var slot := slots[k];
      if slot.address !in seen {
        return Err(FOREIGN_EXCEPTION);
      }
      WithdrawalStep(slots[..k], slot, seen);
      assert slots[..k + 1] == slots[..k] + [slot];
      var lamports := LamportsRead(seen, slot.address);
      if lamports != 0 {
        OneMoreWithdrawn(withdrawals, (slot.address, lamports));
        refundedLamports := refundedLamports + lamports;
        withdrawals := withdrawals + [(slot.address, lamports)];
      }
    }
    assert slots[..|slots|] == slots;
    r := Ok((withdrawals, refundedLamports));
  }

  lemma NothingWithdrawn(slots: seq<PoolSlot>, seen: Answers)
    ensures Withdrawals(slots[..0], seen) == [] && Lamports([]) == 0
  {
  }

  /** What the loop of `reconcile` has to do, and when it stops short. */
  lemma ReconcileIs(cfg: Config, state: PoolState, seen: Answers, now: int)
    ensures Operate(cfg, state, PoolModel.Reconcile(now, seen, Resolved)) ==
            if !ReconcileRead(state.slots, seen) then Err(FOREIGN_EXCEPTION)
            else Ok((state.(slots := ReconciledSlots(cfg, state.slots, seen, now)),
                     Reconciled(With(cfg, state.slots, seen, now, {Gone, Released}),
                                With(cfg, state.slots, seen, now, {Settled}),
                                With(cfg, state.slots, seen, now, {Pending}))))
    ensures ReconcileRead(state.slots[..0], seen)
    ensures forall k :: 0 <= k < |state.slots| && Reconcilable(state.slots[k]) && state.slots[k].address !in seen
                        ==> !ReconcileRead(state.slots, seen)
  {
    hide With, ReconciledSlots;
  }

  /** The loop of `reconcile`, replacing one slot of the ledger at a time. */
  method ReconcileLoop(cfg: Config, original: PoolState, seen: Answers,
                       now: int) returns (r: Result<(PoolState, Reply)>)
    requires Distinct(original.slots)
    ensures r == Operate(cfg, original, PoolModel.Reconcile(now, seen, Resolved))
  {
    hide Distinct, With, WithSlot, ReconcileRead, Operate;
    var state, slots := original, original.slots;
    var released, settled, stillPending := [], [], [];
    NothingWith(cfg, slots, seen, now);
    ReconcileIs(cfg, original, seen, now);
    for k := 0 to |slots|
      invariant ReconcileRead(slots[..k], seen)
      invariant state == original.(slots := ReconciledSlots(cfg, slots[..k], seen, now) + slots[k..])
      invariant released == With(cfg, slots[..k], seen, now, {Gone, Released})
      invariant settled == With(cfg, slots[..k], seen, now, {Settled})
      invariant stillPending == With(cfg, slots[..k], seen, now, {Pending})
    {
      var slot := slots[k];
      if Reconcilable(slot) && slot.address !in seen {
        return Err(FOREIGN_EXCEPTION);
      }
      ReconcileStep(cfg, original, slots, seen, now, k);
      WithStep(cfg, slots, seen, now, k);
      if Reconcilable(slot) {
        var value := ValueRead(seen, slot.address);
        var record := slot.spentAgainst.value;
        if value.None? {
          state := WithSlot(state, Rearmed(slot, None, Unknown));
          released := released + [slot.index];
        } else if value.value != record.value {
          state := WithSlot(state, Rearmed(slot, value));
          settled := settled + [slot.index];
        } else if now - record.at >= cfg.sendWindowMs {
          state := WithSlot(state, Rearmed(slot, value, Unspent, Some(now)));
          released := released + [slot.index];
        } else {
          stillPending := stillPending + [slot.index];
        }
      }
    }
    assert slots[..|slots|] == slots && ReconciledSlots(cfg, slots, seen, now) + slots[|slots|..]
           == ReconciledSlots(cfg, slots, seen, now);
    r := Ok((state, Reconciled(released, settled, stillPending)));
  }

  class Pool {
    const cfg: Config
    var current: Option<PoolState>
    /** What the key-value store holds under this pool's key. */
    var stored: Option<PoolState>

    ghost function Ledger(): Device
      reads this
    {
      Device(current, stored)
    }

    ghost predicate Valid()
      reads this
    {
      ValidDevice(Ledger())
    }

    constructor (cfg: Config, stored: Option<PoolState>)
      requires stored.Some? ==> Distinct(stored.value.slots)
      ensures Valid() && this.cfg == cfg && Ledger() == Device(None, stored)
    {
      this.cfg := cfg;
      this.current := None;
      this.stored := stored;
    }

    method Persist(state: PoolState, write: Write)
      modifies this
      ensures Ledger() == PoolModel.Persist(old(Ledger()), state, write)
    {
      current := Some(state);
      if !write.RejectedBeforeStoring? {
        stored := Some(state);
      }
    }

    method LoadLedger() returns (r: Result<PoolState>)
      modifies this
      ensures r == match Loaded(old(Ledger())) case Some(state) => Ok(state) case None => Err(NONCE_LEDGER_MISSING)
      ensures Ledger() == Device(Loaded(old(Ledger())), old(stored))
    {
      if current.None? {
        current := stored;
      }
      if current.None? {
        return Err(NONCE_LEDGER_MISSING);
      }
      r := Ok(current.value);
    }

    method ReserveSlot(merchant: Key, now: int, amount: int, write: Write) returns (r: Result<Reply>)
      requires Valid()
      modifies this
      ensures Valid() && (Ledger(), r) == Apply(cfg, old(Ledger()), OnLedger(Reserve(merchant, now, amount, write)))
    {
      ApplyKeepsValid(cfg, Ledger(), OnLedger(Reserve(merchant, now, amount, write)));
      hide Distinct, Pick, Counted, WithSlot;
      var loaded := LoadLedger();
      if loaded.Err? {
        return Err(loaded.code);
      }
      var state := loaded.value;
      if amount <= 0 {
        return Err(LIMIT_PAYER_ALLOWANCE);
      }
      var allowance := AllowanceOf(LogOf(Some(state)), now, cfg.spendLimit, cfg.spendLimitWindowMs);
      if amount > allowance.remaining {
        return Err(LIMIT_PAYER_ALLOWANCE);
      }
      var slot := Pick(state.slots);
      if slot.None? {
        return Err(NONCE_POOL_EXHAUSTED);
      }
      var spendLog := Counted(LogOf(Some(state)), now, cfg.spendLimitWindowMs) + [SpendEntry(now, amount)];
      var spent := slot.value.(state := Spent,
                               spentAgainst := Some(SpentRecord(slot.value.value.value, merchant, now)));
      Persist(WithSlot(state, spent).(spendLog := Some(spendLog)), write);
      r := Answer(write, Reserved(slot.value.index, slot.value.value.value));
    }

    method Allowance(now: int) returns (a: SpendAllowance)
      ensures a == AllowanceOf(LogOf(Loaded(Ledger())), now, cfg.spendLimit, cfg.spendLimitWindowMs)
    {
      a := AllowanceOf(LogOf(if current.Some? then current else stored), now, cfg.spendLimit, cfg.spendLimitWindowMs);
    }

    method ApplyNonceReturn(payload: NonceReturnPayload, signed: set<Signed>, write: Write) returns (r: Result<Reply>)
      requires Valid()
      modifies this
      ensures Valid() && (Ledger(), r) == Apply(cfg, old(Ledger()), OnLedger(NonceReturned(payload, signed, write)))
    {
      var loaded := LoadLedger();
      if loaded.Err? {
        return Err(loaded.code);
      }
      var state := loaded.value;
      var k := Find(state.slots, payload.nonceIndex);
      if k.None? || !state.slots[k.value].state.Spent? || state.slots[k.value].spentAgainst.None? {
        return Err(NONCE_RETURN_UNTRUSTED);
      }
      var slot := state.slots[k.value];
      var record := slot.spentAgainst.value;
      var verified := VerifyNonceReturn(signed, payload, cfg.payer, record.merchant, record.value);
      if verified.Err? {
        return Err(verified.code);
      }
      var next := WithSlot(state, Rearmed(slot, Some(payload.newNonceValue)));
      Persist(next, write);
      r := Answer(write, Status(next));
    }

    method Refresh(seen: Answers, write: Write) returns (r: Result<Reply>)
      requires Valid()
      modifies this
      ensures Valid() && (Ledger(), r) == Apply(cfg, old(Ledger()), OnLedger(PoolModel.Refresh(seen, write)))
    {
      var loaded := LoadLedger();
      if loaded.Err? {
        return Err(loaded.code);
      }
      var state := loaded.value;
      var slots := ReadAgain(state.slots, seen);
      if slots.Err? {
        return Err(slots.code);
      }
      var next := state.(slots := slots.value);
      Persist(next, write);
      r := Answer(write, Status(next));
    }

    method Recover(maxProbe: int, seen: Answers, epoch: int, write: Write) returns (r: Result<Reply>)
      requires Valid()
      modifies this
      ensures Valid() && (Ledger(), r) == Apply(cfg, old(Ledger()), PoolModel.Recover(maxProbe, seen, epoch, write))
    {
      var slots := ProbeAll(cfg.payer, seen, maxProbe);
      if slots.Err? {
        return Err(slots.code);
      }
      if slots.value == [] {
        return Err(NONCE_LEDGER_MISSING);
      }
      var log := LogOf(if current.Some? then current else stored);
      var next := PoolState(cfg.payer, slots.value[|slots.value| - 1].index + 1, epoch, slots.value, Some(log));
      Persist(next, write);
      r := Answer(write, Status(next));
    }

    /** `create` up to the point where its ledger is written. */
    method Setup(size: int, key: Key, setup: PoolModel.Setup, epoch: int, write: Write) returns (r: Result<Reply>)
      requires Valid()
      modifies this
      ensures Valid() && (Ledger(), r) == Apply(cfg, old(Ledger()), PoolModel.Create(size, key, setup, epoch, write))
    {
      if size < 1 || size > MAX_POOL_SIZE {
        return Err(NONCE_INDEX_OUT_OF_RANGE);
      }
      if key != cfg.payer {
        return Err(CANON_ACCOUNT_MISMATCH);
      }
      if setup.Underfunded? {
        return Err(NONCE_POOL_UNDERFUNDED);
      }
      var slots: seq<PoolSlot> := [];
      for index := 0 to size
        invariant slots == FreshSlots(cfg.payer, index)
      {
        slots := slots + [PoolSlot(index, NonceAccount(cfg.payer, index), None, Unspent, None, None)];
      }
      if !setup.Landed? {
        return Err(FOREIGN_EXCEPTION);
      }
      var log := LogOf(if current.Some? then current else stored);
      var next := PoolState(cfg.payer, size, epoch, slots, Some(log));
      Persist(next, write);
      r := Answer(write, Status(next));
    }

    method Create(size: int, key: Key, setup: PoolModel.Setup, epoch: int, write: Write, seen: Answers,
                  write2: Write) returns (r: Result<Reply>)
      requires Valid()
      modifies this
      ensures Valid()
      ensures var (d, created) := Apply(cfg, old(Ledger()), PoolModel.Create(size, key, setup, epoch, write));
              (Ledger(), r) == if created.Err? then (d, created)
                else Apply(cfg, d, OnLedger(PoolModel.Refresh(seen, write2)))
    {
      r := Setup(size, key, setup, epoch, write);
      if r.Ok? {
        r := Refresh(seen, write2);
      }
    }

    method Close(key: Key, seen: Answers, setup: PoolModel.Setup, write: Write) returns (r: Result<Reply>)
      requires Valid()
      modifies this
      ensures Valid() && (Ledger(), r) == Apply(cfg, old(Ledger()), OnLedger(PoolModel.Close(key, seen, setup, write)))
    {
      hide Distinct, AllRead, Withdrawals, Lamports, NeedsWithdrawal, ClosedSlots;
      ApplyKeepsValid(cfg, Ledger(), OnLedger(PoolModel.Close(key, seen, setup, write)));
      var loaded := LoadLedger();
      if loaded.Err? {
        return Err(loaded.code);
      }
      var state := loaded.value;
      if key != cfg.payer {
        return Err(CANON_ACCOUNT_MISMATCH);
      }
      if setup.Underfunded? {
        return Err(NONCE_POOL_UNDERFUNDED);
      }
      var withdrawals := CollectWithdrawals(state.slots, seen);
      if withdrawals.Err? {
        return Err(withdrawals.code);
      }
      WithdrawsExactlyWhenNeeded(state.slots, seen);
      if withdrawals.value.0 != [] && !setup.Landed? {
        return Err(FOREIGN_EXCEPTION);
      }
      Persist(state.(slots := ClosedSlots(state.slots)), write);
      r := Answer(write, Refunded(withdrawals.value.1));
    }

    method Reconcile(now: int, seen: Answers, write: Write) returns (r: Result<Reply>)
      requires Valid()
      modifies this
      ensures Valid() && (Ledger(), r) == Apply(cfg, old(Ledger()), OnLedger(PoolModel.Reconcile(now, seen, write)))
    {
      var loaded := LoadLedger();
      if loaded.Err? {
        return Err(loaded.code);
      }
      var next := ReconcileLoop(cfg, loaded.value, seen, now);
      if next.Err? {
        return Err(next.code);
      }
      Persist(next.value.0, write);
      r := Answer(write, next.value.1);
    }
  }
}
