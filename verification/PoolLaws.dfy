/** What single pool operations promise: which slot is handed out, what reconciliation decides. */
module PoolLaws {
  import opened Common
  import opened SpendLog
  import opened PoolModel

  // --- reserveSlot ---------------------------------------------------------------------------------

  lemma UsableStep(slots: seq<PoolSlot>)
    requires slots != []
    ensures FirstUnreleased(UsableSlots(slots)) == if Usable(slots[0]) && slots[0].releasedAt.None? then Some(slots[0])
                                                   else FirstUnreleased(UsableSlots(slots[1..]))
  {
    var usable, rest := UsableSlots(slots), UsableSlots(slots[1..]);
    if Usable(slots[0]) {
      assert usable[0] == slots[0] && usable[1..] == rest;
    } else {
      assert usable == rest;
    }
  }

  /** No slot before `k` is usable and unreleased, and `slots[k]` is. */
  ghost predicate FirstAt(slots: seq<PoolSlot>, s: PoolSlot, k: int) {
    && 0 <= k < |slots| && slots[k] == s && Usable(s) && s.releasedAt.None?
    && forall j :: 0 <= j < k ==> !Usable(slots[j]) || slots[j].releasedAt.Some?
  }

  lemma FirstMoves(slots: seq<PoolSlot>, s: PoolSlot, k: int)
    requires slots != [] && FirstAt(slots[1..], s, k) && !(Usable(slots[0]) && slots[0].releasedAt.None?)
    ensures FirstAt(slots, s, k + 1)
  {
    assert forall j :: 0 < j < k + 1 ==> slots[j] == slots[1..][j - 1];
  }

  lemma {:induction false} FirstOfUsable(slots: seq<PoolSlot>)
    ensures match FirstUnreleased(UsableSlots(slots))
            case Some(s) => exists k :: FirstAt(slots, s, k)
            case None => forall s :: s in slots && Usable(s) ==> s.releasedAt.Some?
  {
    if slots != [] {
      FirstOfUsable(slots[1..]);
      UsableStep(slots);
      var rest := FirstUnreleased(UsableSlots(slots[1..]));
      hide UsableSlots, FirstUnreleased;
      if Usable(slots[0]) && slots[0].releasedAt.None? {
        assert FirstAt(slots, slots[0], 0);
      } else if rest.Some? {
        var k :| FirstAt(slots[1..], rest.value, k);
        FirstMoves(slots, rest.value, k);
      } else {
        assert slots == [slots[0]] + slots[1..];
      }
    }
  }

  /** `slots[k]` was released first, and is the first in ledger order of those. */
  ghost predicate ReleasedFirst(slots: seq<PoolSlot>, k: int) {
    && 0 <= k < |slots|
    && (forall j :: 0 <= j < k ==> ReleaseTime(slots[k]) < ReleaseTime(slots[j]))
    && (forall j :: k <= j < |slots| ==> ReleaseTime(slots[k]) <= ReleaseTime(slots[j]))
  }

  lemma SortStep(slots: seq<PoolSlot>)
    requires slots != []
    ensures var sorted, rest := SortByRelease(slots), SortByRelease(slots[1..]);
            && sorted != [] && (rest == [] <==> slots[1..] == [])
            && sorted[0] == if rest == [] || ReleaseTime(slots[0]) <= ReleaseTime(rest[0]) then slots[0] else rest[0]
  {
  }

  lemma {:induction false} SortedHead(slots: seq<PoolSlot>) returns (k: nat)
    requires slots != []
    ensures ReleasedFirst(slots, k) && SortByRelease(slots) != [] && SortByRelease(slots)[0] == slots[k]
  {
    hide SortByRelease;
    SortStep(slots);
    var rest := slots[1..];
    if rest == [] {
      k := 0;
    } else {
      var i := SortedHead(rest);
      k := if ReleaseTime(slots[0]) <= ReleaseTime(rest[i]) then 0 else i + 1;
      assert forall j :: 0 < j < |slots| ==> slots[j] == rest[j - 1];
    }
  }

  /**
    A released slot is handed out only when no unreleased slot is usable, and then the one released
    first; among unreleased slots the first in ledger order is.
   */
  lemma PickOrder(slots: seq<PoolSlot>)
    requires Pick(slots).Some?
    ensures var picked := Pick(slots).value;
            if exists s :: s in slots && Usable(s) && s.releasedAt.None?
            then picked.releasedAt.None?
                 && exists k :: 0 <= k < |slots| && slots[k] == picked
                                && forall j :: 0 <= j < k ==> !Usable(slots[j]) || slots[j].releasedAt.Some?
            else picked.releasedAt.Some?
                 && forall s :: s in slots && Usable(s) ==> picked.releasedAt.value <= s.releasedAt.value
  {
    FirstOfUsable(slots);
    var usable := UsableSlots(slots);
    if FirstUnreleased(usable).None? {
      assert usable != [];
      var k := SortedHead(usable);
      forall s | s in slots && Usable(s)
        ensures Pick(slots).value.releasedAt.value <= s.releasedAt.value
      {
        assert s in usable && Pick(slots).value == usable[k];
      }
    }
  }

  /**
    What a reservation answers and leaves on record: a usable slot of the ledger, by its index and value;
    that slot is spent, remembering what is signed, for whom and when; every other slot is as it was; and at
    that moment exactly the amount is gone from the allowance.
   */
  lemma ReservationIsRecorded(cfg: Config, state: PoolState, merchant: Key, now: int, amount: int, write: Write)
    requires Operate(cfg, state, Reserve(merchant, now, amount, write)).Ok? && cfg.spendLimitWindowMs > 0
    ensures var (next, reply) := Operate(cfg, state, Reserve(merchant, now, amount, write)).value;
            && next == state.(slots := next.slots, spendLog := next.spendLog) && |next.slots| == |state.slots|
            && LogOf(Some(next)) == Counted(LogOf(Some(state)), now, cfg.spendLimitWindowMs) + [SpendEntry(now, amount)]
    ensures var (next, reply) := Operate(cfg, state, Reserve(merchant, now, amount, write)).value;
            && Pick(state.slots).Some?
            && var slot := Pick(state.slots).value;
            && slot in state.slots && slot.state == Unspent && slot.value != None
            && reply == Reserved(slot.index, slot.value.value)
            && forall k | 0 <= k < |state.slots| ::
                 next.slots[k] == if state.slots[k].index != slot.index then state.slots[k]
                                  else slot.(state := Spent, spentAgainst := Some(SpentRecord(slot.value.value,
                                    merchant, now)))
    ensures var next := Operate(cfg, state, Reserve(merchant, now, amount, write)).value.0;
            var before, after := AllowanceOf(LogOf(Some(state)), now, cfg.spendLimit, cfg.spendLimitWindowMs),
                                 AllowanceOf(LogOf(Some(next)), now, cfg.spendLimit, cfg.spendLimitWindowMs);
            after.spent == before.spent + amount && after.remaining == before.remaining - amount
  {
    var log, window := LogOf(Some(state)), cfg.spendLimitWindowMs;
    var entry := SpendEntry(now, amount);
    CountedTwice(log, now, now, window);
    CountedAppend(Counted(log, now, window), [entry], now, window);
    assert Counted([entry], now, window) == [entry] && Total([entry]) == amount;
    TotalAppend(Counted(log, now, window), [entry]);
    hide Pick, Counted, Total, Earliest;
  }

  /**
    A reservation is refused exactly when its amount is not positive or does not fit under the limit with
    what is still inside the window, or when no unspent slot holds a value; the allowance is asked first.
   */
  lemma WhenReservationIsRefused(cfg: Config, state: PoolState, merchant: Key, now: int, amount: int, write: Write)
    ensures var r := Operate(cfg, state, Reserve(merchant, now, amount, write));
            var spent := Total(Counted(LogOf(Some(state)), now, cfg.spendLimitWindowMs));
            var fits := 0 < amount && spent + amount <= cfg.spendLimit;
            && (r == Err(LIMIT_PAYER_ALLOWANCE) <==> !fits)
            && (r == Err(NONCE_POOL_EXHAUSTED) <==>
                fits && forall s :: s in state.slots ==> s.state != Unspent || s.value == None)
            && (r.Err? ==> r.code in {LIMIT_PAYER_ALLOWANCE, NONCE_POOL_EXHAUSTED})
  {
    hide Counted, Total, Earliest;
    if Pick(state.slots).Some? {
      assert Pick(state.slots).value in state.slots;
    }
    hide Pick;
  }

  // --- reconcile -----------------------------------------------------------------------------------

  function Indices(slots: seq<PoolSlot>): multiset<nat> {
    if slots == [] then multiset{}
    else
      var last := slots[|slots| - 1];
      Indices(slots[..|slots| - 1]) + if Reconcilable(last) then multiset{last.index} else multiset{}
  }

  lemma {:induction false} PartitionOf(cfg: Config, slots: seq<PoolSlot>, seen: Answers, now: int)
    requires ReconcileRead(slots, seen)
    ensures multiset(With(cfg, slots, seen, now, {Gone, Released})) + multiset(With(cfg, slots, seen, now, {Settled}))
            + multiset(With(cfg, slots, seen, now, {Pending})) == Indices(slots)
  {
    hide With, VerdictOn, Reconcilable;
    WithLast(cfg, slots, seen, now, {Gone, Released});
    WithLast(cfg, slots, seen, now, {Settled});
    WithLast(cfg, slots, seen, now, {Pending});
    if slots != [] {
      PartitionOf(cfg, slots[..|slots| - 1], seen, now);
      OneVerdict(cfg, slots[|slots| - 1], seen, now);
    }
  }

  lemma OneVerdict(cfg: Config, slot: PoolSlot, seen: Answers, now: int)
    requires Reconcilable(slot) ==> slot.address in seen
    ensures VerdictOn(cfg, slot, seen, now) == Untouched <==> !Reconcilable(slot)
  {
  }

  lemma WithLast(cfg: Config, slots: seq<PoolSlot>, seen: Answers, now: int, verdicts: set<Verdict>)
    requires ReconcileRead(slots, seen)
    ensures slots == [] ==> With(cfg, slots, seen, now, verdicts) == []
    ensures slots != [] ==>
              var last := slots[|slots| - 1];
              multiset(With(cfg, slots, seen, now, verdicts))
                == multiset(With(cfg, slots[..|slots| - 1], seen, now, verdicts))
                                                                 + (if VerdictOn(cfg, last, seen, now) in verdicts
                                                                    then multiset{last.index} else multiset{})
  {
  }

  /** What one slot becomes, and which answer names it. */
  ghost predicate Decided(cfg: Config, s: PoolSlot, t: PoolSlot, now: int, seen: Answers, released: seq<nat>,
                          settled: seq<nat>, pending: seq<nat>)
    requires Reconcilable(s) ==> s.address in seen
  {
    if !Reconcilable(s) then t == s && s.index !in released && s.index !in settled && s.index !in pending
    else
      var value, record := ValueRead(seen, s.address), s.spentAgainst.value;
      && (s.index in settled <==> value.Some? && value.value != record.value)
      && (s.index in pending <==> value == Some(record.value) && now - record.at < cfg.sendWindowMs)
      && (s.index in released <==> value.None? || (value == Some(record.value) && now - record.at >= cfg.sendWindowMs))
      && t.index == s.index && t.address == s.address
      && (s.index in pending ==> t == s)
      && (s.index !in pending ==>
            && t.value == value && t.spentAgainst == None
            && t.state == (if value == None then Unknown else Unspent)
            && t.releasedAt == if s.index in released && value != None then Some(now) else None)
  }

  lemma AnswerNames(cfg: Config, slots: seq<PoolSlot>, now: int, seen: Answers, k: nat, verdicts: set<Verdict>)
    requires Distinct(slots) && ReconcileRead(slots, seen) && k < |slots|
    ensures slots[k].index in With(cfg, slots, seen, now, verdicts) <==> VerdictOn(cfg, slots[k], seen, now) in verdicts
  {
  }

  /**
    The three answers of `reconcile` are exactly the slots that were spent when it started, each in
    one answer and left in the state that answer names, with every other slot untouched.
   */
  lemma ReconcilePartition(cfg: Config, state: PoolState, now: int, seen: Answers, next: PoolState, released: seq<nat>,
                           settled: seq<nat>, pending: seq<nat>)
    requires Distinct(state.slots)
    requires Operate(cfg, state, Reconcile(now, seen, Resolved)) == Ok((next, Reconciled(released, settled, pending)))
    ensures ReconcileRead(state.slots, seen)
    ensures multiset(released) + multiset(settled) + multiset(pending) == Indices(state.slots)
    ensures next == state.(slots := next.slots) && |next.slots| == |state.slots|
    ensures forall k :: 0 <= k < |state.slots| ==>
                          Decided(cfg, state.slots[k], next.slots[k], now, seen, released, settled, pending)
  {
    hide With, Indices;
    assert ReconcileRead(state.slots, seen) && next == state.(slots := ReconciledSlots(cfg, state.slots, seen, now));
    PartitionOf(cfg, state.slots, seen, now);
    hide Operate;
    forall k | 0 <= k < |state.slots|
      ensures Decided(cfg, state.slots[k], next.slots[k], now, seen, released, settled, pending)
    {
      AnswerNames(cfg, state.slots, now, seen, k, {Gone, Released});
      AnswerNames(cfg, state.slots, now, seen, k, {Settled});
      AnswerNames(cfg, state.slots, now, seen, k, {Pending});
      hide Distinct;
      assert next.slots[k] == ReconciledSlot(cfg, state.slots[k], seen, now);
    }
  }

  /**
    A slot that a reconcile released with its value unmoved goes last: the next reservation hands it out
    only if no slot is left that is unspent, holds a value and was never released, and then only if it
    was released first.  One released because its account is gone is not handed out at all.
   */
  lemma ReleasedGoesLast(cfg: Config, state: PoolState, now: int, seen: Answers, next: PoolState, released: seq<nat>,
                         settled: seq<nat>, pending: seq<nat>, merchant: Key, later: int, amount: int, k: nat)
    requires Distinct(state.slots)
    requires Operate(cfg, state, Reconcile(now, seen, Resolved)) == Ok((next, Reconciled(released, settled, pending)))
    requires ReserveSlot(cfg, next, merchant, later, amount).Ok? && k < |next.slots|
    requires ReserveSlot(cfg, next, merchant, later, amount).value.1 == next.slots[k] && next.slots[k].index in released
    ensures next.slots[k].releasedAt == Some(now) && next.slots[k].state == Unspent && next.slots[k].value != None
    ensures forall s :: s in next.slots && s.state == Unspent && s.value != None ==>
                          s.releasedAt != None && now <= s.releasedAt.value
  {
    ReconcilePartition(cfg, state, now, seen, next, released, settled, pending);
    PickOrder(next.slots);
    assert Decided(cfg, state.slots[k], next.slots[k], now, seen, released, settled, pending);
    hide Operate, Pick, AllowanceOf, Indices, Distinct, With;
  }

  /** A reconcile fails exactly when the account of a spent slot cannot be asked about. */
  lemma WhenReconcileFails(cfg: Config, state: PoolState, now: int, seen: Answers, write: Write)
    ensures var r := Operate(cfg, state, Reconcile(now, seen, write));
            && (r.Err? <==>
                exists s :: s in state.slots && s.state == Spent && s.spentAgainst != None && s.address !in seen)
            && (r.Err? ==> r.code == FOREIGN_EXCEPTION)
  {
    if !ReconcileRead(state.slots, seen) {
      var k :| 0 <= k < |state.slots| && Reconcilable(state.slots[k]) && state.slots[k].address !in seen;
      assert state.slots[k] in state.slots;
    }
    hide With, ReconciledSlots;
  }

  /** Reconciling again at once, with the chain unmoved, changes nothing and reports only what is still pending. */
  lemma ReconcileTwice(cfg: Config, state: PoolState, now: int, seen: Answers, next: PoolState, released: seq<nat>,
                       settled: seq<nat>, pending: seq<nat>)
    requires Operate(cfg, state, Reconcile(now, seen, Resolved)) == Ok((next, Reconciled(released, settled, pending)))
    ensures Operate(cfg, next, Reconcile(now, seen, Resolved)) == Ok((next, Reconciled([], [], pending)))
  {
    assert forall k :: 0 <= k < |next.slots| ==> ReconciledSlot(cfg, next.slots[k], seen, now) == next.slots[k];
    assert ReconcileRead(next.slots, seen);
    assert ReconciledSlots(cfg, next.slots, seen, now) == next.slots;
    SettledFirst(cfg, state.slots, seen, now);
  }

  lemma {:induction false} SettledFirst(cfg: Config, slots: seq<PoolSlot>, seen: Answers, now: int)
    requires ReconcileRead(slots, seen)
    ensures var again := ReconciledSlots(cfg, slots, seen, now);
            && ReconcileRead(again, seen)
            && With(cfg, again, seen, now, {Gone, Released}) == [] && With(cfg, again, seen, now, {Settled}) == []
            && With(cfg, again, seen, now, {Pending}) == With(cfg, slots, seen, now, {Pending})
  {
    var again := ReconciledSlots(cfg, slots, seen, now);
    assert ReconcileRead(again, seen);
    if slots != [] {
      var n := |slots| - 1;
      SettledFirst(cfg, slots[..n], seen, now);
      DecidedOnce(cfg, slots[n], seen, now);
      assert again[..n] == ReconciledSlots(cfg, slots[..n], seen, now);
      assert again[n] == ReconciledSlot(cfg, slots[n], seen, now);
      hide VerdictOn, ReconciledSlot, ReconciledSlots, Reconcilable;
    }
  }

  /** A slot decided once is left alone, and only a pending one is named again. */
  lemma DecidedOnce(cfg: Config, slot: PoolSlot, seen: Answers, now: int)
    requires Reconcilable(slot) ==> slot.address in seen
    ensures var again := ReconciledSlot(cfg, slot, seen, now);
            && (Reconcilable(again) ==> again.address in seen)
            && VerdictOn(cfg, again, seen, now)
               == if VerdictOn(cfg, slot, seen, now) == Pending then Pending else Untouched
  {
  }

  // --- refresh -------------------------------------------------------------------------------------

  /**
    Refreshing and reconciling on the same answers can be done in either order: a refresh reads values
    and nothing else, so it can neither settle, release nor re-arm a slot, nor take a release mark away.
   */
  lemma RefreshAndReconcileCommute(cfg: Config, state: PoolState, now: int, seen: Answers)
    requires AllRead(state.slots, seen)
    ensures var refreshed, reconciled := Operate(cfg, state, Refresh(seen, Resolved)),
            Operate(cfg, state, Reconcile(now, seen, Resolved));
            && refreshed.Ok? && reconciled.Ok?
            && var one, other := Operate(cfg, refreshed.value.0, Reconcile(now, seen, Resolved)),
               Operate(cfg, reconciled.value.0, Refresh(seen, Resolved));
               one.Ok? && other.Ok? && one.value.0 == other.value.0 && one.value.1 == reconciled.value.1
  {
    hide With;
    var refreshed, reconciled := RefreshSlots(state.slots, seen), ReconciledSlots(cfg, state.slots, seen, now);
    assert ReconcileRead(state.slots, seen) && ReconcileRead(refreshed, seen) && AllRead(reconciled, seen);
    assert ReconciledSlots(cfg, refreshed, seen, now) == RefreshSlots(reconciled, seen);
    SameAnswers(cfg, state.slots, seen, now, {Gone, Released});
    SameAnswers(cfg, state.slots, seen, now, {Settled});
    SameAnswers(cfg, state.slots, seen, now, {Pending});
  }

  lemma {:induction false} SameAnswers(cfg: Config, slots: seq<PoolSlot>, seen: Answers, now: int,
                                       verdicts: set<Verdict>)
    requires AllRead(slots, seen)
    ensures ReconcileRead(slots, seen) && ReconcileRead(RefreshSlots(slots, seen), seen)
    ensures With(cfg, RefreshSlots(slots, seen), seen, now, verdicts) == With(cfg, slots, seen, now, verdicts)
  {
    var refreshed := RefreshSlots(slots, seen);
    assert ReconcileRead(slots, seen) && ReconcileRead(refreshed, seen);
    if slots != [] {
      var n := |slots| - 1;
      SameAnswers(cfg, slots[..n], seen, now, verdicts);
      assert refreshed[..n] == RefreshSlots(slots[..n], seen);
    }
  }
}
