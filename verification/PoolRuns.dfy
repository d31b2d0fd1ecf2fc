/** The invariant of `PoolSafety` holds in every run, and what that means for hand-outs and returns. */
module PoolRuns {
  import opened Common
  import opened Canonical
  import opened SpendLog
  import opened PoolModel
  import opened PoolWorld
  import opened PoolSafety

  /** The ledger an operation writes, if it gets that far. */
  function Next(cfg: Config, d: Device, e: Event): (r: Option<PoolState>) {
    match e
    case Crash => None
    case Recover(maxProbe, seen, epoch, _) =>
      (match RecoveredState(cfg, d, maxProbe, seen, epoch) case Ok(state) => Some(state) case Err(_) => None)
    case Create(size, key, setup, epoch, _) =>
      (match Created(cfg, d, size, key, setup, epoch) case Ok(state) => Some(state) case Err(_) => None)
    case OnLedger(op) =>
      if Loaded(d).None? then None
      else match Operate(cfg, Loaded(d).value, op) case Ok(done) => Some(done.0) case Err(_) => None
  }

  predicate HandsOut(cfg: Config, d: Device, e: Event) {
    e.OnLedger? && (e.op.Reserve? || e.op.NonceReturned?) && Apply(cfg, d, e).1.Ok?
  }

  /** Every ledger after an operation was there before or is the one it wrote; an answer means both are. */
  lemma LedgersAfter(cfg: Config, d: Device, e: Event)
    ensures var after, next := Apply(cfg, d, e).0, Next(cfg, d, e);
            && (after.current == Loaded(d) || after.current == d.current || after.current == None
                || (next.Some? && after.current == next))
            && (after.stored == d.stored || (next.Some? && after.stored == next))
            && (HandsOut(cfg, d, e) ==> next.Some? && after.current == next && after.stored == next)
            && (e.OnLedger? && e.op.NonceReturned? && !HandsOut(cfg, d, e) ==> NewlyAccepted(cfg, d, e) == [])
            && (!HandsOut(cfg, d, e) ==> HandedOut(cfg, d, e) == [])
  {
  }

  lemma SoundWithSlot(cfg: Config, v: World, state: PoolState, slot: PoolSlot, next: PoolState)
    requires Distinct(state.slots) && next.slots == WithSlot(state, slot).slots
    requires slot.address == NonceAccount(cfg.payer, slot.index) && Sound(v, slot, Mark(v, slot.index))
    requires forall s :: s in state.slots && s.index != slot.index ==>
                           s.address == NonceAccount(cfg.payer, s.index) && Sound(v, s, Mark(v, s.index))
    ensures SoundLedger(cfg, v, next)
  {
  }

  lemma OldLedgerStaysSound(cfg: Config, w: World, v: World, state: PoolState)
    requires OnlyReleased(w, v) && SoundLedger(cfg, w, state) && forall i :: Mark(w, i) <= |w.lines(i)|
    ensures SoundLedger(cfg, v, state)
  {
    forall s | s in state.slots
      ensures Sound(v, s, Mark(v, s.index))
    {
      ReleaseKeepsSound(w, v, s, Mark(w, s.index));
      SoundLater(v, s, Mark(w, s.index), Mark(v, s.index));
    }
  }

  // --- the ledger each operation writes ------------------------------------------------------------

  /** What holds when an operation is about to write its ledger, its own effect on chain included. */
  ghost predicate Ready(cfg: Config, w: World) {
    (forall i :: NeverRepeats(w.lines(i)) && Mark(w, i) <= |w.lines(i)|) && Recorded(w)
  }

  lemma RefreshedLedger(cfg: Config, w: World, v: World, state: PoolState, seen: Answers)
    requires Ready(cfg, w) && OnlyReleased(w, v) && SoundLedger(cfg, w, state) && AllRead(state.slots, seen)
             && TruthfulAnswers(cfg, w, seen)
    ensures SoundLedger(cfg, v, state.(slots := RefreshSlots(state.slots, seen)))
  {
    var next := RefreshSlots(state.slots, seen);
    forall t | t in next
      ensures t.address == NonceAccount(cfg.payer, t.index) && Sound(v, t, Mark(v, t.index))
    {
      var k :| 0 <= k < |next| && next[k] == t;
      var s := state.slots[k];
      assert s in state.slots;
      RefreshedIsSound(cfg, w, s, seen[s.address]);
      ReleaseKeepsSound(w, v, t, |w.lines(t.index)|);
    }
  }

  lemma ReconciledLedger(cfg: Config, w: World, v: World, state: PoolState, seen: Answers, now: int)
    requires Ready(cfg, w) && OnlyReleased(w, v) && SoundLedger(cfg, w, state) && ReconcileRead(state.slots, seen)
             && TruthfulAnswers(cfg, w, seen)
    requires forall s, k | s in state.slots && Reconcilable(s) && s.address in seen
             && VerdictOn(cfg, s, seen, now) == Released
                           && 0 <= k < |w.payments| && Against(w.payments[k], s.index, s.spentAgainst.value.value)
                           && now - w.payments[k].at >= cfg.sendWindowMs
               :: v.payments[k].released
    ensures SoundLedger(cfg, v, state.(slots := ReconciledSlots(cfg, state.slots, seen, now)))
  {
    var next := ReconciledSlots(cfg, state.slots, seen, now);
    forall t | t in next
      ensures t.address == NonceAccount(cfg.payer, t.index) && Sound(v, t, Mark(v, t.index))
    {
      var k :| 0 <= k < |next| && next[k] == t;
      var s := state.slots[k];
      assert s in state.slots;
      ReconciledIsSound(cfg, w, v, s, seen, now);
    }
  }

  lemma FreshLedger(cfg: Config, v: World, size: nat, state: PoolState)
    requires state.slots == FreshSlots(cfg.payer, size) && v.busy.None?
    requires forall i: nat :: i < size ==> i in v.misled || (|v.lines(i)| > 0 && Clear(v, i, |v.lines(i)| - 1))
    ensures SoundLedger(cfg, v, state)
  {
  }

  lemma RecoveredLedger(cfg: Config, v: World, state: PoolState)
    requires forall s :: s in state.slots ==> s.state.Unknown? && s.address == NonceAccount(cfg.payer, s.index)
    requires Distinct(state.slots)
    ensures SoundLedger(cfg, v, state)
  {
  }

  lemma ProbeAddresses(payer: Key, seen: Answers, index: nat, maxProbe: int)
    ensures Probe(payer, seen, index, maxProbe).Ok? ==>
              forall s :: s in Probe(payer, seen, index, maxProbe).value ==>
                            s.state.Unknown? && s.address == NonceAccount(payer, s.index)
    decreases maxProbe - index
  {
    if index < maxProbe && index <= 255 {
      ProbeAddresses(payer, seen, index + 1, maxProbe);
    }
  }

  /** The slot a verified return is for. */
  lemma ReturnedSlot(cfg: Config, state: PoolState, e: Event)
    requires e.OnLedger? && e.op.NonceReturned? && ApplyReturn(cfg, state, e.op.payload, e.op.signed).Ok?
    ensures var k := Find(state.slots, e.op.payload.nonceIndex);
            && k.Some? && e.op.payload.nonceIndex >= 0
            && var s := state.slots[k.value];
               && s in state.slots && s.index == e.op.payload.nonceIndex && Reconcilable(s)
               && RecordAt(state.slots, e.op.payload.nonceIndex) == s.spentAgainst
               && ApplyReturn(cfg, state, e.op.payload, e.op.signed)
                  == Ok(WithSlot(state, Rearmed(s, Some(e.op.payload.newNonceValue))))
  {
    var s := state.slots[Find(state.slots, e.op.payload.nonceIndex).value];
  }

  /** A return that is applied is a real advance or misleads its slot. */
  ghost predicate RealOrMisled(w: World, s: PoolSlot, value: Key)
    requires s.spentAgainst.Some?
  {
    s.index in w.misled || Advanced(w, s.index, s.spentAgainst.value.value, value)
  }

  // --- committing ----------------------------------------------------------------------------------

  /** The world with the operation's own effect on chain, still running. */
  ghost function Effected(cfg: Config, w: World, e: Event, created: nat -> Key): World {
    w.(lines := LinesAfter(cfg, w, e, created))
  }

  lemma EffectKeepsInv(cfg: Config, w: World, e: Event, created: nat -> Key)
    requires Inv(cfg, w) && Enabled(cfg, w, Commit(e, created))
    ensures Inv(cfg, Effected(cfg, w, e, created)) && ChainMoved(w, Effected(cfg, w, e, created))
  {
    var v := Effected(cfg, w, e, created);
    assert ChainMoved(w, v) by {
      hide Apply, Inv;
    }
    assert forall i :: |w.lines(i)| <= |v.lines(i)|;
    assert forall i :: Mark(w, i) <= Mark(v, i) <= |v.lines(i)|;
    ChainStepKeepsInv(cfg, w, v);
  }

  lemma TruthExtends(cfg: Config, w: World, v: World, seen: Answers)
    requires TruthfulAnswers(cfg, w, seen) && ChainMoved(w, v) && v.busy == w.busy && w.busy.Some?
    ensures TruthfulAnswers(cfg, v, seen)
  {
    forall i: nat | NonceAccount(cfg.payer, i) in seen
      ensures WasTrue(v, cfg.payer, i, seen[NonceAccount(cfg.payer, i)])
    {
      assert WasTrue(w, cfg.payer, i, seen[NonceAccount(cfg.payer, i)]);
      assert forall k :: 0 <= k < |w.lines(i)| ==> v.lines(i)[k] == w.lines(i)[k];
    }
  }

  /** What a commit leaves of the invariant apart from the ledgers, when nothing is handed out or accepted. */
  lemma QuietLines(cfg: Config, w: World, v: World)
    requires Inv(cfg, w) && OnlyReleased(w, v)
    ensures Recorded(v) && NoneTwice(v) && forall i :: NeverRepeats(v.lines(i)) && Mark(v, i) == |v.lines(i)|
  {
  }

  lemma QuietCommit(cfg: Config, w: World, e: Event, created: nat -> Key)
    requires Inv(cfg, w) && Enabled(cfg, w, Commit(e, created)) && !HandsOut(cfg, w.device, e)
    ensures Inv(cfg, After(cfg, w, Commit(e, created)))
  {
    var m, v := Effected(cfg, w, e, created), After(cfg, w, Commit(e, created));
    EffectKeepsInv(cfg, w, e, created);
    LedgersAfter(cfg, w.device, e);
    assert OnlyReleased(m, v) by {
      assert Marked(cfg, w.device, e, w.payments) + [] == Marked(cfg, w.device, e, w.payments);
      assert w.accepted + [] == w.accepted;
    }
    QuietLines(cfg, m, v);
    if w.device.current.Some? {
      OldLedgerStaysSound(cfg, m, v, w.device.current.value);
    }
    if w.device.stored.Some? {
      OldLedgerStaysSound(cfg, m, v, w.device.stored.value);
    }
    if Next(cfg, w.device, e).Some? {
      NextLedger(cfg, w, m, v, e, created);
    }
    hide Apply, Next, SoundLedger, Recorded, NoneTwice, NeverRepeats, After, Effected, Enabled, OnlyReleased, Mark;
  }

  /** The ledger written by an operation that hands nothing out. */
  lemma NextLedger(cfg: Config, w: World, m: World, v: World, e: Event, created: nat -> Key)
    requires Inv(cfg, w) && Enabled(cfg, w, Commit(e, created)) && m == Effected(cfg, w, e, created) && Inv(cfg, m)
             && ChainMoved(w, m)
    requires OnlyReleased(m, v) && v.payments == Marked(cfg, w.device, e, w.payments) && Next(cfg, w.device, e).Some?
    requires v.misled == w.misled + MisledBy(cfg, w, e)
    ensures SoundLedger(cfg, v, Next(cfg, w.device, e).value)
  {
    var next := Next(cfg, w.device, e).value;
    match e {
      case Recover(maxProbe, seen, epoch, write) =>
        ProbeAddresses(cfg.payer, seen, 0, maxProbe);
        RecoveredLedger(cfg, v, next);
      case Create(size, key, setup, epoch, write) =>
        CreatedLines(cfg, w, m, v, e, created);
        FreshLedger(cfg, v, size, next);
      case OnLedger(op) =>
        TruthExtends(cfg, w, m, SeenBy(e));
        assert SoundLedger(cfg, m, Loaded(w.device).value);
        OperatedLedger(cfg, w, m, v, e);
    }
  }

  /** A landed setup leaves every new account on a value nobody has used. */
  lemma CreatedLines(cfg: Config, w: World, m: World, v: World, e: Event, created: nat -> Key)
    requires Inv(cfg, w) && Enabled(cfg, w, Commit(e, created)) && e.Create? && Creates(cfg, e)
             && m == Effected(cfg, w, e, created)
    requires OnlyReleased(m, v) && ChainMoved(w, m) && Recorded(w)
    ensures forall i: nat :: i < e.size ==> i in v.misled || (|v.lines(i)| > 0 && Clear(v, i, |v.lines(i)| - 1))
  {
  }

  lemma ReservedLedger(cfg: Config, v: World, state: PoolState, merchant: Key, now: int, amount: int)
    requires SoundLedger(cfg, v, state) && ReserveSlot(cfg, state, merchant, now, amount).Ok?
    ensures SoundLedger(cfg, v, ReserveSlot(cfg, state, merchant, now, amount).value.0)
  {
    var (next, s) := ReserveSlot(cfg, state, merchant, now, amount).value;
    SpentIsSound(v, s, merchant, now, Mark(v, s.index));
    var spent := s.(state := Spent, spentAgainst := Some(SpentRecord(s.value.value, merchant, now)));
    hide Sound;
    SoundWithSlot(cfg, v, state, spent, next);
  }

  lemma ReturnedLedger(cfg: Config, v: World, state: PoolState, s: PoolSlot, value: Key)
    requires Ready(cfg, v) && v.busy.None? && SoundLedger(cfg, v, state) && s in state.slots && Reconcilable(s)
    requires RealOrMisled(v, s, value)
    ensures SoundLedger(cfg, v, WithSlot(state, Rearmed(s, Some(value))))
  {
    if s.index !in v.misled {
      ReturnedIsSound(v, s, value, Mark(v, s.index));
    }
    assert Sound(v, Rearmed(s, Some(value)), Mark(v, s.index));
    hide Sound;
    SoundWithSlot(cfg, v, state, Rearmed(s, Some(value)), WithSlot(state, Rearmed(s, Some(value))));
  }

  /** What one slot's return makes of the world's misled slots. */
  lemma ReturnTold(cfg: Config, w: World, v: World, e: Event)
    requires e.OnLedger? && e.op.NonceReturned? && Loaded(w.device).Some?
    requires ApplyReturn(cfg, Loaded(w.device).value, e.op.payload, e.op.signed).Ok?
    requires v.lines == w.lines && MisledBy(cfg, w, e) <= v.misled
    ensures var state := Loaded(w.device).value; var k := Find(state.slots, e.op.payload.nonceIndex);
            && k.Some? && state.slots[k.value] in state.slots && Reconcilable(state.slots[k.value])
            && e.op.payload.nonceIndex == state.slots[k.value].index
            && RealOrMisled(v, state.slots[k.value], e.op.payload.newNonceValue)
            && ApplyReturn(cfg, state, e.op.payload, e.op.signed)
               == Ok(WithSlot(state, Rearmed(state.slots[k.value], Some(e.op.payload.newNonceValue))))
  {
    ReturnedSlot(cfg, Loaded(w.device).value, e);
    hide ApplyReturn, WithSlot;
    var s := Loaded(w.device).value.slots[Find(Loaded(w.device).value.slots, e.op.payload.nonceIndex).value];
    if s.index !in v.misled {
      assert !FalseReturn(cfg, w, e, s.index);
      assert Advanced(w, s.index, s.spentAgainst.value.value, e.op.payload.newNonceValue);
    }
  }

  lemma OperatedLedger(cfg: Config, w: World, m: World, v: World, e: Event)
    requires e.OnLedger? && Loaded(w.device).Some? && Operate(cfg, Loaded(w.device).value, e.op).Ok?
    requires Ready(cfg, m) && SoundLedger(cfg, m, Loaded(w.device).value) && TruthfulAnswers(cfg, m, SeenBy(e))
             && MisledBy(cfg, w, e) <= v.misled
    requires OnlyReleased(m, v) && m.payments == w.payments && v.payments == Marked(cfg, w.device, e, w.payments)
    requires e.op.NonceReturned? ==> m.lines == w.lines
    ensures SoundLedger(cfg, v, Operate(cfg, Loaded(w.device).value, e.op).value.0)
  {
    var state := Loaded(w.device).value;
    OldLedgerStaysSound(cfg, m, v, state);
    hide SoundLedger, OnlyReleased;
    match e.op {
      case Load =>
      case Reserve(merchant, now, amount, write) =>
        ReservedLedger(cfg, v, state, merchant, now, amount);
      case NonceReturned(payload, signed, write) =>
        assert v.lines == m.lines && v.busy.None? && Ready(cfg, v) by {
          StillReady(cfg, m, v);
        }
        ReturnTold(cfg, w, v, e);
        ReturnedLedger(cfg, v, state, state.slots[Find(state.slots, payload.nonceIndex).value], payload.newNonceValue);
      case Refresh(seen, write) =>
        RefreshedLedger(cfg, m, v, state, seen);
      case Close(key, seen, setup, write) =>
        ClosedLedger(cfg, m, v, state);
      case Reconcile(now, seen, write) =>
        ReconciledLedger(cfg, m, v, state, seen, now);
    }
  }

  lemma StillReady(cfg: Config, m: World, v: World)
    requires Ready(cfg, m) && OnlyReleased(m, v)
    ensures Ready(cfg, v) && v.lines == m.lines && v.busy.None?
  {
  }

  lemma ClosedLedger(cfg: Config, m: World, v: World, state: PoolState)
    requires SoundLedger(cfg, m, state)
    ensures SoundLedger(cfg, v, state.(slots := ClosedSlots(state.slots)))
  {
  }

  // --- hand-outs and acceptances -------------------------------------------------------------------

  /** What a reservation that was answered changes in the world. */
  lemma AnsweredReserve(cfg: Config, d: Device, e: Event) returns (p: SlotPayment, s: PoolSlot, next: PoolState)
    requires HandsOut(cfg, d, e) && e.op.Reserve?
    ensures Loaded(d).Some? && s in Loaded(d).value.slots && Usable(s)
            && p == SlotPayment(s.index, s.value.value, e.op.merchant, e.op.now, false, false)
    ensures next.slots == WithSlot(Loaded(d).value,
                                   s.(state := Spent, spentAgainst := Some(SpentRecord(s.value.value, p.merchant,
                                     p.at)))).slots
    ensures Apply(cfg, d, e).0 == Device(Some(next), Some(next)) && HandedOut(cfg, d, e) == [p]
            && NewlyAccepted(cfg, d, e) == []
  {
    hide AllowanceOf, Counted;
    var reserved := ReserveSlot(cfg, Loaded(d).value, e.op.merchant, e.op.now, e.op.amount).value;
    next, s := reserved.0, reserved.1;
    p := SlotPayment(s.index, s.value.value, e.op.merchant, e.op.now, false, false);
  }

  lemma AfterReserve(cfg: Config, w: World, e: Event, created: nat -> Key) returns (p: SlotPayment, s: PoolSlot,
                     next: PoolState)
    requires Enabled(cfg, w, Commit(e, created)) && HandsOut(cfg, w.device, e) && e.op.Reserve?
    ensures Loaded(w.device).Some? && s in Loaded(w.device).value.slots && Usable(s)
    ensures p == SlotPayment(s.index, s.value.value, e.op.merchant, e.op.now, false, false)
    ensures next.slots == WithSlot(Loaded(w.device).value,
                                   s.(state := Spent, spentAgainst := Some(SpentRecord(s.value.value, p.merchant,
                                     p.at)))).slots
    ensures After(cfg, w, Commit(e, created))
            == w.(device := Device(Some(next), Some(next)), payments := w.payments + [p], busy := None)
  {
    p, s, next := AnsweredReserve(cfg, w.device, e);
    hide Apply, HandedOut, NewlyAccepted, HandsOut, WithSlot;
    assert Marked(cfg, w.device, e, w.payments) == w.payments && w.accepted + [] == w.accepted;
  }

  /** A reservation that was answered: one more payment, and both ledgers know it. */
  lemma ReserveCommit(cfg: Config, w: World, e: Event, created: nat -> Key)
    requires Inv(cfg, w) && Enabled(cfg, w, Commit(e, created)) && HandsOut(cfg, w.device, e) && e.op.Reserve?
    ensures Inv(cfg, After(cfg, w, Commit(e, created)))
  {
    hide Enabled, After, HandsOut, SoundLedger, Recorded, NoneTwice, NeverRepeats, WithSlot;
    var p, s, next := AfterReserve(cfg, w, e, created);
    var state, m := Loaded(w.device).value, w.(busy := None);
    assert OnlyReleased(w, m);
    OldLedgerStaysSound(cfg, w, m, state);
    StillRecorded(cfg, w, m);
    HandOutLedger(cfg, m, After(cfg, w, Commit(e, created)), state, p, s, next);
  }

  lemma StillRecorded(cfg: Config, w: World, m: World)
    requires Inv(cfg, w) && m == w.(busy := None)
    ensures Recorded(m) && NoneTwice(m) && forall i :: NeverRepeats(m.lines(i))
  {
  }

  lemma HandOutLedger(cfg: Config, m: World, v: World, state: PoolState, p: SlotPayment, s: PoolSlot, next: PoolState)
    requires (forall i :: NeverRepeats(m.lines(i))) && Recorded(m) && NoneTwice(m) && m.busy.None?
             && SoundLedger(cfg, m, state)
    requires v.lines == m.lines && v.accepted == m.accepted && v.misled == m.misled && v.payments == m.payments + [p]
             && v.busy.None?
    requires s in state.slots && Usable(s) && Against(p, s.index, s.value.value)
    requires next.slots == WithSlot(state,
                                    s.(state := Spent, spentAgainst := Some(SpentRecord(s.value.value, p.merchant,
                                      p.at)))).slots
    ensures SoundLedger(cfg, v, next) && Recorded(v) && NoneTwice(v) && forall i :: Mark(v, i) == |v.lines(i)|
  {
    HandOutIsSound(m, v, p, s, Mark(m, s.index));
    forall t | t in state.slots && t.index != s.index
      ensures Sound(v, t, Mark(v, t.index))
    {
      HandOutKeepsOthers(m, v, p, t, Mark(m, t.index));
    }
    SoundWithSlot(cfg, v, state, s.(state := Spent,
                                    spentAgainst := Some(SpentRecord(s.value.value, p.merchant, p.at))), next);
    hide Sound, SoundLedger;
  }

  lemma AnsweredReturn(cfg: Config, d: Device, e: Event) returns (next: PoolState)
    requires HandsOut(cfg, d, e) && e.op.NonceReturned?
    ensures Loaded(d).Some? && ApplyReturn(cfg, Loaded(d).value, e.op.payload, e.op.signed) == Ok(next)
    ensures Apply(cfg, d, e).0 == Device(Some(next), Some(next)) && HandedOut(cfg, d, e) == []
    ensures NewlyAccepted(cfg, d, e) == if e.op.payload.nonceIndex >= 0
            then [(e.op.payload.nonceIndex, e.op.payload.newNonceValue)] else []
  {
    hide ApplyReturn;
    next := ApplyReturn(cfg, Loaded(d).value, e.op.payload, e.op.signed).value;
  }

  lemma AfterReturn(cfg: Config, w: World, e: Event, created: nat -> Key) returns (next: PoolState)
    requires Enabled(cfg, w, Commit(e, created)) && HandsOut(cfg, w.device, e) && e.op.NonceReturned?
             && e.op.payload.nonceIndex >= 0
    ensures Loaded(w.device).Some? && ApplyReturn(cfg, Loaded(w.device).value, e.op.payload, e.op.signed) == Ok(next)
    ensures After(cfg, w, Commit(e, created)) == w.(device := Device(Some(next), Some(next)), busy := None,
                                                    misled := w.misled + MisledBy(cfg, w, e),
                                                    accepted := w.accepted + [(e.op.payload.nonceIndex,
                                                                               e.op.payload.newNonceValue)])
  {
    next := AnsweredReturn(cfg, w.device, e);
    hide Apply, HandedOut, NewlyAccepted, HandsOut, ApplyReturn;
    assert Marked(cfg, w.device, e, w.payments) + [] == w.payments;
  }

  lemma ReturnCommit(cfg: Config, w: World, e: Event, created: nat -> Key)
    requires Inv(cfg, w) && Enabled(cfg, w, Commit(e, created)) && HandsOut(cfg, w.device, e) && e.op.NonceReturned?
    ensures Inv(cfg, After(cfg, w, Commit(e, created)))
  {
    var _ := AnsweredReturn(cfg, w.device, e);
    hide Enabled, HandsOut, SoundLedger, Recorded, NoneTwice, NeverRepeats, ApplyReturn, Apply, MisledBy;
    var state, m, v := Loaded(w.device).value, w.(busy := None), After(cfg, w, Commit(e, created));
    assert OnlyReleased(w, m);
    OldLedgerStaysSound(cfg, w, m, state);
    StillRecorded(cfg, w, m);
    hide After, Inv;
    ReturnedSlot(cfg, state, e);
    var next := AfterReturn(cfg, w, e, created);
    ReturnTold(cfg, w, v, e);
    AcceptLedger(cfg, m, v, state, state.slots[Find(state.slots, e.op.payload.nonceIndex).value],
                 e.op.payload.newNonceValue);
    Assembled(cfg, v, next);
  }

  lemma Assembled(cfg: Config, v: World, next: PoolState)
    requires SoundLedger(cfg, v, next) && Recorded(v) && NoneTwice(v) && v.device == Device(Some(next), Some(next))
    requires forall i :: NeverRepeats(v.lines(i)) && Mark(v, i) == |v.lines(i)|
    ensures Inv(cfg, v)
  {
    hide SoundLedger, Recorded, NoneTwice, NeverRepeats;
  }

  lemma AcceptLedger(cfg: Config, m: World, v: World, state: PoolState, s: PoolSlot, value: Key)
    requires (forall i :: NeverRepeats(m.lines(i))) && Recorded(m) && NoneTwice(m) && m.busy.None?
             && SoundLedger(cfg, m, state)
    requires v.lines == m.lines && v.accepted == m.accepted + [(s.index, value)] && v.payments == m.payments
             && v.busy.None?
    requires m.misled <= v.misled && s in state.slots && Reconcilable(s) && RealOrMisled(v, s, value)
    ensures SoundLedger(cfg, v, WithSlot(state, Rearmed(s, Some(value)))) && Recorded(v) && NoneTwice(v)
    ensures forall i :: NeverRepeats(v.lines(i)) && Mark(v, i) == |v.lines(i)|
  {
    AcceptIsSound(m, v, s, value, Mark(m, s.index));
    forall t | t in state.slots && t.index != s.index
      ensures Sound(v, t, Mark(v, t.index))
    {
      AcceptKeepsOthers(m, v, s.index, value, t, Mark(m, t.index));
    }
    SoundWithSlot(cfg, v, state, Rearmed(s, Some(value)), WithSlot(state, Rearmed(s, Some(value))));
    hide Sound, SoundLedger;
  }

  // --- every step, every run -----------------------------------------------------------------------

  lemma LandKeepsInv(cfg: Config, w: World, k: nat, next: Key)
    requires Inv(cfg, w) && Enabled(cfg, w, Land(k, next))
    ensures Inv(cfg, After(cfg, w, Land(k, next)))
  {
    var v := After(cfg, w, Land(k, next));
    assert ChainMoved(w, v) by {
      hide Inv;
    }
    ChainStepKeepsInv(cfg, w, v);
  }

  lemma AccountStepKeepsInv(cfg: Config, w: World, s: Step)
    requires Inv(cfg, w) && Enabled(cfg, w, s) && (s.CloseAccount? || s.CreateAccount? || s.Tick? || s.Begin?)
    ensures Inv(cfg, After(cfg, w, s))
  {
    var v := After(cfg, w, s);
    assert ChainMoved(w, v) by {
      hide Inv;
    }
    ChainStepKeepsInv(cfg, w, v);
  }

  lemma StepKeepsInv(cfg: Config, w: World, s: Step)
    requires Inv(cfg, w) && Enabled(cfg, w, s)
    ensures Inv(cfg, After(cfg, w, s))
  {
    match s {
      case Land(k, next) => LandKeepsInv(cfg, w, k, next);
      case Commit(e, created) =>
        if !HandsOut(cfg, w.device, e) {
          QuietCommit(cfg, w, e, created);
        } else if e.op.Reserve? {
          ReserveCommit(cfg, w, e, created);
        } else {
          ReturnCommit(cfg, w, e, created);
        }
      case CrashDevice => ForgetKeepsInv(cfg, w, After(cfg, w, s));
      case LoseStore => ForgetKeepsInv(cfg, w, After(cfg, w, s));
      case _ => AccountStepKeepsInv(cfg, w, s);
    }
  }

  lemma ForgetKeepsInv(cfg: Config, w: World, v: World)
    requires Inv(cfg, w) && v == w.(device := v.device, busy := None) && v.device.current.None?
    requires v.device.stored == w.device.stored || v.device.stored.None?
    ensures Inv(cfg, v)
  {
    if v.device.stored.Some? {
      assert OnlyReleased(w, v);
      OldLedgerStaysSound(cfg, w, v, v.device.stored.value);
    }
  }

  lemma {:induction false} RunsKeepInv(cfg: Config, worlds: seq<World>, steps: seq<Step>)
    requires IsRun(cfg, worlds, steps)
    ensures Inv(cfg, worlds[|steps|])
  {
    if steps == [] {
      assert Inv(cfg, START);
    } else {
      var n := |steps| - 1;
      var shorter, fewer := worlds[..n + 1], steps[..n];
      assert IsRun(cfg, shorter, fewer) by {
        hide Enabled, After;
      }
      RunsKeepInv(cfg, shorter, fewer);
      StepKeepsInv(cfg, worlds[n], steps[n]);
    }
  }

  lemma RunStep(cfg: Config, worlds: seq<World>, steps: seq<Step>, k: nat)
    requires IsRun(cfg, worlds, steps) && k < |steps|
    ensures |worlds| == |steps| + 1 && Enabled(cfg, worlds[k], steps[k])
            && worlds[k + 1] == After(cfg, worlds[k], steps[k])
  {
    hide Enabled, After;
  }

  lemma InvAt(cfg: Config, worlds: seq<World>, steps: seq<Step>, k: nat)
    requires IsRun(cfg, worlds, steps) && k <= |steps|
    ensures Inv(cfg, worlds[k])
  {
    assert IsRun(cfg, worlds[..k + 1], steps[..k]) by {
      hide Enabled, After;
    }
    hide IsRun, Inv;
    RunsKeepInv(cfg, worlds[..k + 1], steps[..k]);
  }
}
