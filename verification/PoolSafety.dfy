/**
  Slot safety over whole runs: no slot value is handed out twice unless reconciliation released it in
  between, and no nonce return is accepted twice.  The argument follows one slot at a time along its
  account's line: each ledger, in memory or in the store, knows a position on the line, and nothing
  beyond that position was ever handed out.
 */
module PoolSafety {
  import opened Common
  import opened Canonical
  import opened NonceCheck
  import opened PoolModel
  import opened PoolWorld

  // --- the invariant -------------------------------------------------------------------------------

  predicate Against(p: SlotPayment, i: nat, value: Key) {
    p.index == i && p.value == value
  }

  /** No payment was ever signed against this value, and no return ever brought it. */
  ghost predicate Quiet(w: World, i: nat, value: Key) {
    && (i, value) !in w.accepted
    && forall k :: 0 <= k < |w.payments| ==> !Against(w.payments[k], i, value)
  }

  /** Every value the account has held from position `from` on is quiet. */
  ghost predicate Clear(w: World, i: nat, from: int) {
    forall k :: 0 <= k < |w.lines(i)| && from <= k && w.lines(i)[k].Some? ==> Quiet(w, i, w.lines(i)[k].value)
  }

  ghost predicate AllReleased(w: World, i: nat, value: Key) {
    forall k :: 0 <= k < |w.payments| && Against(w.payments[k], i, value) ==> w.payments[k].released
  }

  /** Payments against this value are released, or are the one this record remembers. */
  ghost predicate Remembered(w: World, i: nat, record: SpentRecord) {
    forall k :: 0 <= k < |w.payments| && Against(w.payments[k], i, record.value) ==>
                  w.payments[k].released || w.payments[k].at == record.at
  }

  ghost predicate HeldAt(w: World, i: nat, value: Key, a: int) {
    0 <= a < |w.lines(i)| && w.lines(i)[a] == Some(value)
  }

  /** What a ledger may say of a slot, knowing the line up to `mark`; of a misled slot, anything. */
  ghost predicate Sound(w: World, s: PoolSlot, mark: nat) {
    s.index in w.misled || Knows(w, s, mark)
  }

  ghost predicate Knows(w: World, s: PoolSlot, mark: nat) {
    match s.state
    case Unknown => true
    case Unspent =>
      if s.value.None? then Clear(w, s.index, mark - 1)
      else exists a: nat :: a < mark && HeldAt(w, s.index, s.value.value, a)
                            && AllReleased(w, s.index, s.value.value) && Clear(w, s.index, a + 1)
    case Spent =>
      s.spentAgainst.Some? ==>
        exists a: nat :: a < mark && HeldAt(w, s.index, s.spentAgainst.value.value, a)
          && Remembered(w, s.index, s.spentAgainst.value) && Clear(w, s.index, a + 1)
  }

  ghost predicate SoundLedger(cfg: Config, w: World, state: PoolState) {
    && Distinct(state.slots)
    && forall s :: s in state.slots ==> s.address == NonceAccount(cfg.payer, s.index) && Sound(w, s, Mark(w, s.index))
  }

  /** A line never returns to a value. */
  ghost predicate NeverRepeats(line: Line) {
    forall a, b :: 0 <= a < b < |line| && line[a].Some? ==> line[a] != line[b]
  }

  ghost predicate Recorded(w: World) {
    && (forall k :: 0 <= k < |w.payments| ==>
                      w.payments[k].index in w.misled || Some(w.payments[k].value) in w.lines(w.payments[k].index))
    && (forall k :: 0 <= k < |w.accepted| ==>
                      w.accepted[k].0 in w.misled || Some(w.accepted[k].1) in w.lines(w.accepted[k].0))
  }

  /**
    No value is handed out again before reconciliation released it, no return accepted again, unless the
    slot was misled.
   */
  ghost predicate NoneTwice(w: World) {
    && (forall j, k | 0 <= j < k < |w.payments| && Against(w.payments[k], w.payments[j].index, w.payments[j].value)
          :: w.payments[j].released || w.payments[j].index in w.misled)
    && (forall j, k :: 0 <= j < k < |w.accepted| ==> w.accepted[j] != w.accepted[k] || w.accepted[j].0 in w.misled)
  }

  ghost predicate Inv(cfg: Config, w: World) {
    && (forall i :: NeverRepeats(w.lines(i)) && Mark(w, i) <= |w.lines(i)|)
    && Recorded(w) && NoneTwice(w)
    && (w.device.current.Some? ==> SoundLedger(cfg, w, w.device.current.value))
    && (w.device.stored.Some? ==> SoundLedger(cfg, w, w.device.stored.value))
  }

  // --- steps of the chain --------------------------------------------------------------------------

  /** `v` is `w` after accounts only gained values nobody has used, with the same payments up to landing. */
  ghost predicate ChainMoved(w: World, v: World) {
    && v.accepted == w.accepted && v.misled == w.misled && |v.payments| == |w.payments|
    && (forall k :: 0 <= k < |w.payments| ==> v.payments[k] == w.payments[k].(landed := v.payments[k].landed))
    && forall i ::
         || v.lines(i) == w.lines(i)
         || (v.lines(i) == w.lines(i) + [None])
         || (exists value :: v.lines(i) == w.lines(i) + [Some(value)] && Unused(w, i, value))
  }

  lemma ChainKeepsClear(w: World, v: World, i: nat, from: int)
    requires ChainMoved(w, v) && Recorded(w) && Clear(w, i, from) && i !in w.misled
    ensures Clear(v, i, from)
  {
  }

  lemma ChainKeepsSound(w: World, v: World, s: PoolSlot, mark: nat)
    requires ChainMoved(w, v) && Recorded(w) && Sound(w, s, mark)
    ensures Sound(v, s, mark)
  {
    var i := s.index;
    if i in w.misled {
    } else if s.state.Unspent? && s.value.None? {
      ChainKeepsClear(w, v, i, mark - 1);
    } else if s.state.Unspent? {
      var a: nat :| a < mark && HeldAt(w, i, s.value.value, a) && AllReleased(w, i, s.value.value)
        && Clear(w, i, a + 1);
      ChainKeepsClear(w, v, i, a + 1);
      assert HeldAt(v, i, s.value.value, a) && AllReleased(v, i, s.value.value);
    } else if s.state.Spent? && s.spentAgainst.Some? {
      var record := s.spentAgainst.value;
      var a: nat :| a < mark && HeldAt(w, i, record.value, a) && Remembered(w, i, record) && Clear(w, i, a + 1);
      ChainKeepsClear(w, v, i, a + 1);
      assert HeldAt(v, i, record.value, a) && Remembered(v, i, record);
    }
  }

  /** What holds up to a mark holds up to a later one: knowing more of the line asks for less. */
  lemma SoundLater(w: World, s: PoolSlot, mark: nat, later: nat)
    requires Sound(w, s, mark) && mark <= later
    ensures Sound(w, s, later)
  {
  }

  lemma ChainKeepsLedger(cfg: Config, w: World, v: World, state: PoolState)
    requires ChainMoved(w, v) && Recorded(w) && SoundLedger(cfg, w, state)
    requires forall i :: Mark(w, i) <= Mark(v, i)
    ensures SoundLedger(cfg, v, state)
  {
    forall s | s in state.slots
      ensures Sound(v, s, Mark(v, s.index))
    {
      ChainKeepsSound(w, v, s, Mark(w, s.index));
      SoundLater(v, s, Mark(w, s.index), Mark(v, s.index));
    }
  }

  lemma ChainKeepsLines(w: World, v: World)
    requires ChainMoved(w, v) && Recorded(w) && NoneTwice(w) && forall i :: NeverRepeats(w.lines(i))
    ensures Recorded(v) && NoneTwice(v) && forall i :: NeverRepeats(v.lines(i)) && |w.lines(i)| <= |v.lines(i)|
  {
  }

  /** Any step of the chain alone, of the clock, or the start of an operation. */
  lemma ChainStepKeepsInv(cfg: Config, w: World, v: World)
    requires Inv(cfg, w) && ChainMoved(w, v)
    requires v.device == w.device && (forall i :: Mark(w, i) <= Mark(v, i) <= |v.lines(i)|)
    ensures Inv(cfg, v)
  {
    ChainKeepsLines(w, v);
    if w.device.current.Some? {
      ChainKeepsLedger(cfg, w, v, w.device.current.value);
    }
    if w.device.stored.Some? {
      ChainKeepsLedger(cfg, w, v, w.device.stored.value);
    }
    hide ChainMoved, SoundLedger, Recorded, NoneTwice, NeverRepeats;
  }

  // --- slots, one at a time ------------------------------------------------------------------------

  /** `v` is `w` with some payments marked released and nothing else changed, once the operation is over. */
  ghost predicate OnlyReleased(w: World, v: World) {
    && v.lines == w.lines && v.accepted == w.accepted && w.misled <= v.misled && v.busy.None?
       && |v.payments| == |w.payments|
    && forall k :: 0 <= k < |w.payments| ==>
                     v.payments[k] == w.payments[k].(released := v.payments[k].released)
                       && (w.payments[k].released ==> v.payments[k].released)
  }

  lemma ReleaseKeepsClear(w: World, v: World, i: nat, from: int)
    requires OnlyReleased(w, v) && Clear(w, i, from)
    ensures Clear(v, i, from)
  {
  }

  lemma ReleaseKeepsSound(w: World, v: World, s: PoolSlot, mark: nat)
    requires OnlyReleased(w, v) && Sound(w, s, mark)
    ensures Sound(v, s, mark)
  {
    var i := s.index;
    if i in v.misled {
    } else if s.state.Unspent? && s.value.None? {
      ReleaseKeepsClear(w, v, i, mark - 1);
    } else if s.state.Unspent? {
      var a: nat :| a < mark && HeldAt(w, i, s.value.value, a) && AllReleased(w, i, s.value.value)
        && Clear(w, i, a + 1);
      ReleaseKeepsClear(w, v, i, a + 1);
      assert HeldAt(v, i, s.value.value, a) && AllReleased(v, i, s.value.value);
    } else if s.state.Spent? && s.spentAgainst.Some? {
      var record := s.spentAgainst.value;
      var a: nat :| a < mark && HeldAt(w, i, record.value, a) && Remembered(w, i, record) && Clear(w, i, a + 1);
      ReleaseKeepsClear(w, v, i, a + 1);
      assert HeldAt(v, i, record.value, a) && Remembered(v, i, record);
    }
  }

  /** A value read from a position beyond what the slot knew is quiet, and so is everything after it. */
  lemma QuietIsSound(w: World, s: PoolSlot, value: Key, k: int)
    requires 0 <= k < |w.lines(s.index)| && w.lines(s.index)[k] == Some(value) && Clear(w, s.index, k)
    requires s.state.Unspent? && s.value == Some(value)
    ensures Knows(w, s, |w.lines(s.index)|)
  {
    assert Quiet(w, s.index, value);
    assert HeldAt(w, s.index, value, k) && AllReleased(w, s.index, value);
  }

  /** `refresh`: whatever moment the answer is from, the slot stays sound. */
  lemma RefreshedIsSound(cfg: Config, w: World, s: PoolSlot, account: NonceAccountState)
    requires NeverRepeats(w.lines(s.index)) && Mark(w, s.index) <= |w.lines(s.index)|
    requires Sound(w, s, Mark(w, s.index)) && WasTrue(w, cfg.payer, s.index, account)
    ensures Sound(w, s.(value := match account case Initialized(_, value, _) => Some(value) case _ => None),
                  |w.lines(s.index)|)
  {
    var i, m, line := s.index, Mark(w, s.index), w.lines(s.index);
    SoundLater(w, s, m, |line|);
    if i !in w.misled && s.state.Unspent? {
      var from: int := m - 1;
      if s.value.Some? {
        var a: nat :| a < m && HeldAt(w, i, s.value.value, a) && AllReleased(w, i, s.value.value) && Clear(w, i, a + 1);
        from := a + 1;
      }
      if account.Initialized? {
        var k :| 0 <= k < |line| && m - 1 <= k && line[k] == Some(account.value);
        if k >= from {
          QuietIsSound(w, s.(value := Some(account.value)), account.value, k);
        } else {
          assert s.value == Some(account.value);
        }
      } else if s.value.Some? && m > 0 {
        var k :| 0 <= k < |line| && m - 1 <= k && line[k] == None;
        assert k >= from;
      }
    }
  }

  /** `reconcile`: settled, released, pending or gone, the slot stays sound once the release is on record. */
  lemma ReconciledIsSound(cfg: Config, w: World, v: World, s: PoolSlot, seen: Answers, now: int)
    requires OnlyReleased(w, v) && NeverRepeats(w.lines(s.index)) && Mark(w, s.index) <= |w.lines(s.index)|
    requires Sound(w, s, Mark(w, s.index))
    requires Reconcilable(s) ==> s.address in seen && WasTrue(w, cfg.payer, s.index, seen[s.address])
    requires forall k :: 0 <= k < |w.payments| && Reconcilable(s) && VerdictOn(cfg, s, seen, now) == Released
                         && Against(w.payments[k], s.index, s.spentAgainst.value.value)
                            && now - w.payments[k].at >= cfg.sendWindowMs
                         ==> v.payments[k].released
    ensures Sound(v, ReconciledSlot(cfg, s, seen, now), |v.lines(s.index)|)
  {
    var i, m, line := s.index, Mark(w, s.index), w.lines(s.index);
    ReleaseKeepsSound(w, v, s, m);
    SoundLater(v, s, m, |line|);
    if i !in v.misled && Reconcilable(s) && ValueRead(seen, s.address).Some? {
      var record, value := s.spentAgainst.value, ValueRead(seen, s.address).value;
      var a: nat :| a < m && HeldAt(w, i, record.value, a) && Remembered(w, i, record) && Clear(w, i, a + 1);
      var k :| 0 <= k < |line| && m - 1 <= k && line[k] == Some(value);
      ReleaseKeepsClear(w, v, i, a + 1);
      if value != record.value {
        QuietIsSound(v, Rearmed(s, Some(value)), value, k);
      } else if VerdictOn(cfg, s, seen, now) == Released {
        assert HeldAt(v, i, value, a) && AllReleased(v, i, value);
      }
    }
  }

  /** `reserveSlot` before anything is signed: the slot is spent, at the position where it was unspent. */
  lemma SpentIsSound(w: World, s: PoolSlot, merchant: Key, now: int, mark: nat)
    requires Sound(w, s, mark) && Usable(s)
    ensures Sound(w, s.(state := Spent, spentAgainst := Some(SpentRecord(s.value.value, merchant, now))), mark)
  {
  }

  /** A real advance past the recorded value brings a value nobody has used, and the slot moves on to it. */
  lemma ReturnedIsSound(w: World, s: PoolSlot, value: Key, mark: nat)
    requires NeverRepeats(w.lines(s.index)) && Knows(w, s, mark) && Reconcilable(s)
    requires Advanced(w, s.index, s.spentAgainst.value.value, value)
    ensures Quiet(w, s.index, value) && Knows(w, Rearmed(s, Some(value)), |w.lines(s.index)|)
  {
    var i, record, line := s.index, s.spentAgainst.value, w.lines(s.index);
    var a: nat :| a < mark && HeldAt(w, i, record.value, a) && Remembered(w, i, record) && Clear(w, i, a + 1);
    var older, newer :| 0 <= older < newer < |line| && line[older] == Some(record.value) && line[newer] == Some(value);
    assert older == a;
    QuietIsSound(w, Rearmed(s, Some(value)), value, newer);
  }

  // --- hand-outs and acceptances -------------------------------------------------------------------

  /** Signing against one slot's value says nothing of the others. */
  lemma HandOutKeepsOthers(w: World, v: World, p: SlotPayment, s: PoolSlot, mark: nat)
    requires v.lines == w.lines && v.accepted == w.accepted && v.misled == w.misled && v.payments == w.payments + [p]
    requires Sound(w, s, mark) && s.index != p.index
    ensures Sound(v, s, mark)
  {
    var i := s.index;
    forall from: int | Clear(w, i, from)
      ensures Clear(v, i, from)
    {
      forall k | 0 <= k < |v.lines(i)| && from <= k && v.lines(i)[k].Some?
        ensures Quiet(v, i, v.lines(i)[k].value)
      {
        assert Quiet(w, i, w.lines(i)[k].value);
      }
    }
    if i in w.misled {
    } else if s.state.Unspent? && s.value.Some? {
      var a: nat :| a < mark && HeldAt(w, i, s.value.value, a) && AllReleased(w, i, s.value.value)
        && Clear(w, i, a + 1);
      assert HeldAt(v, i, s.value.value, a) && AllReleased(v, i, s.value.value);
    } else if s.state.Spent? && s.spentAgainst.Some? {
      var record := s.spentAgainst.value;
      var a: nat :| a < mark && HeldAt(w, i, record.value, a) && Remembered(w, i, record) && Clear(w, i, a + 1);
      assert HeldAt(v, i, record.value, a) && Remembered(v, i, record);
    }
  }

  /** The slot signed against: every earlier payment against its value is released, and the record is the new one's. */
  lemma HandOutIsSound(w: World, v: World, p: SlotPayment, s: PoolSlot, mark: nat)
    requires v.lines == w.lines && v.accepted == w.accepted && v.misled == w.misled && v.payments == w.payments + [p]
    requires NeverRepeats(w.lines(s.index)) && Sound(w, s, mark) && Usable(s)
    requires Against(p, s.index, s.value.value)
    ensures s.index !in w.misled ==> AllReleased(w, s.index, s.value.value) && Some(s.value.value) in w.lines(s.index)
    ensures Sound(v, s.(state := Spent, spentAgainst := Some(SpentRecord(s.value.value, p.merchant, p.at))), mark)
  {
    if s.index !in w.misled {
      var i, value, record := s.index, s.value.value, SpentRecord(s.value.value, p.merchant, p.at);
      var a: nat :| a < mark && HeldAt(w, i, value, a) && AllReleased(w, i, value) && Clear(w, i, a + 1);
      forall k | 0 <= k < |v.lines(i)| && a + 1 <= k && v.lines(i)[k].Some?
        ensures Quiet(v, i, v.lines(i)[k].value)
      {
        assert Quiet(w, i, w.lines(i)[k].value);
      }
      assert HeldAt(v, i, value, a) && Remembered(v, i, record) && Clear(v, i, a + 1);
    }
  }

  lemma AcceptKeepsOthers(w: World, v: World, i: nat, value: Key, s: PoolSlot, mark: nat)
    requires v.lines == w.lines && v.accepted == w.accepted + [(i, value)] && w.misled <= v.misled
             && v.payments == w.payments
    requires Sound(w, s, mark) && s.index != i
    ensures Sound(v, s, mark)
  {
    var j := s.index;
    forall from: int | Clear(w, j, from)
      ensures Clear(v, j, from)
    {
      forall k | 0 <= k < |v.lines(j)| && from <= k && v.lines(j)[k].Some?
        ensures Quiet(v, j, v.lines(j)[k].value)
      {
        assert Quiet(w, j, w.lines(j)[k].value);
      }
    }
    if j in v.misled {
    } else if s.state.Unspent? && s.value.Some? {
      var a: nat :| a < mark && HeldAt(w, j, s.value.value, a) && AllReleased(w, j, s.value.value)
        && Clear(w, j, a + 1);
      assert HeldAt(v, j, s.value.value, a) && AllReleased(v, j, s.value.value);
    } else if s.state.Spent? && s.spentAgainst.Some? {
      var record := s.spentAgainst.value;
      var a: nat :| a < mark && HeldAt(w, j, record.value, a) && Remembered(w, j, record) && Clear(w, j, a + 1);
      assert HeldAt(v, j, record.value, a) && Remembered(v, j, record);
    }
  }

  /** The slot a return re-arms: its new value was never brought before, or the slot is misled. */
  lemma AcceptIsSound(w: World, v: World, s: PoolSlot, value: Key, mark: nat)
    requires v.lines == w.lines && v.accepted == w.accepted + [(s.index, value)] && w.misled <= v.misled
             && v.payments == w.payments
    requires NeverRepeats(w.lines(s.index)) && Sound(w, s, mark) && Reconcilable(s)
    requires s.index in v.misled || Advanced(w, s.index, s.spentAgainst.value.value, value)
    ensures s.index !in v.misled ==> (s.index, value) !in w.accepted && Some(value) in w.lines(s.index)
    ensures Sound(v, Rearmed(s, Some(value)), |v.lines(s.index)|)
  {
    var i := s.index;
    if i !in v.misled {
      ReturnedIsSound(w, s, value, mark);
      var a: nat :| a < |w.lines(i)| && HeldAt(w, i, value, a) && AllReleased(w, i, value) && Clear(w, i, a + 1);
      forall k | 0 <= k < |v.lines(i)| && a + 1 <= k && v.lines(i)[k].Some?
        ensures Quiet(v, i, v.lines(i)[k].value)
      {
        assert Quiet(w, i, w.lines(i)[k].value);
      }
      assert HeldAt(v, i, value, a) && AllReleased(v, i, value) && Clear(v, i, a + 1);
    }
  }
}
