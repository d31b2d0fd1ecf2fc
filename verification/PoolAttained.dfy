/** The theft bound is the best possible, and it does need a clock that brings nothing back. */
module PoolAttained {
  import opened Common
  import opened Canonical
  import opened SpendLog
  import opened NonceCheck
  import opened PoolModel
  import opened PoolSpending

  /** The one slot of a pool of size one, holding `value`. */
  function Slot(cfg: Config, value: Key): PoolSlot {
    PoolSlot(0, NonceAccount(cfg.payer, 0), Some(value), Unspent, None, None)
  }

  function Ready(cfg: Config, value: Key, log: seq<SpendEntry>): Device {
    var state := PoolState(cfg.payer, 1, 0, [Slot(cfg, value)], Some(log));
    Device(Some(state), Some(state))
  }

  function Holding(cfg: Config, value: Key): Answers {
    map[NonceAccount(cfg.payer, 0) := Initialized(cfg.payer, value, 1)]
  }

  function SetUp(cfg: Config, value: Key): seq<Event> {
    [Create(1, cfg.payer, Landed, 0, Resolved), OnLedger(Refresh(Holding(cfg, value), Resolved))]
  }

  function Spend(cfg: Config, merchant: Key, now: int): Event {
    OnLedger(Reserve(merchant, now, cfg.spendLimit, Resolved))
  }

  /** The payment landed and the slot came back with the chain's next value. */
  function Return(cfg: Config, now: int, value: Key): Event {
    OnLedger(Reconcile(now, Holding(cfg, value), Resolved))
  }

  /** The start of window `n` from `t0`. */
  function Start(cfg: Config, t0: int, n: nat): int {
    if n == 0 then t0 else Start(cfg, t0, n - 1) + cfg.spendLimitWindowMs
  }

  lemma {:induction false} StartIs(cfg: Config, t0: int, n: nat)
    ensures Start(cfg, t0, n) == t0 + n * cfg.spendLimitWindowMs
  {
    if n > 0 {
      StartIs(cfg, t0, n - 1);
      OneMore(cfg.spendLimitWindowMs, n);
    }
  }

  lemma OneMore(a: int, n: nat)
    requires n > 0
    ensures a * n == a * (n - 1) + a && n * a == (n - 1) * a + a
  {
  }

  /** Set the pool up, then spend the whole limit at the start of each of `n` windows, reconnecting after each. */
  function Rounds(cfg: Config, supply: seq<Key>, merchant: Key, t0: int, n: nat): seq<Event>
    requires n < |supply|
  {
    if n == 0 then SetUp(cfg, supply[0])
    else
      var last := Start(cfg, t0, n - 1);
      Rounds(cfg, supply, merchant, t0, n - 1) + [Spend(cfg, merchant, last)] + [Return(cfg, last, supply[n])]
  }

  lemma RunOneMore(cfg: Config, d: Device, events: seq<Event>, e: Event)
    ensures Run(cfg, d, events + [e]) == Apply(cfg, Run(cfg, d, events), e).0
    ensures History(cfg, d, events + [e]) == History(cfg, d, events) + SignedBy(cfg, Run(cfg, d, events), e)
  {
  }

  lemma SettingUp(cfg: Config, value: Key)
    ensures Run(cfg, Device(None, None), SetUp(cfg, value)) == Ready(cfg, value, [])
    ensures History(cfg, Device(None, None), SetUp(cfg, value)) == []
  {
    var create, refresh := SetUp(cfg, value)[0], SetUp(cfg, value)[1];
    assert SetUp(cfg, value) == [create] + [refresh] && [create] == [] + [create];
    RunOneMore(cfg, Device(None, None), [], create);
    RunOneMore(cfg, Device(None, None), [create], refresh);
    var created := Run(cfg, Device(None, None), [create]);
    assert created == Device(created.current, created.current) && created.current.Some?;
    assert created.current.value.slots == [Slot(cfg, value).(value := None)];
    assert RefreshSlots(created.current.value.slots, Holding(cfg, value)) == [Slot(cfg, value)];
  }

  /** One slot is all there is to pick. */
  lemma PickOnly(cfg: Config, value: Key)
    ensures Pick([Slot(cfg, value)]) == Some(Slot(cfg, value))
  {
  }

  /** The pool after its one slot is spent at `now`, with nothing older left in the log. */
  function SpentState(cfg: Config, value: Key, merchant: Key, now: int): PoolState {
    PoolState(cfg.payer, 1, 0, [Slot(cfg, value).(state := Spent,
                                                  spentAgainst := Some(SpentRecord(value, merchant, now)))],
              Some([SpendEntry(now, cfg.spendLimit)]))
  }

  lemma Spending(cfg: Config, value: Key, log: seq<SpendEntry>, merchant: Key, now: int)
    requires cfg.spendLimit > 0 && Counted(log, now, cfg.spendLimitWindowMs) == []
    ensures var (d, reply) := Apply(cfg, Ready(cfg, value, log), Spend(cfg, merchant, now));
            && reply.Ok?
            && d.current == Some(SpentState(cfg, value, merchant, now))
  {
    PickOnly(cfg, value);
    var state := Ready(cfg, value, log).current.value;
    var spent := Slot(cfg, value).(state := Spent, spentAgainst := Some(SpentRecord(value, merchant, now)));
    assert WithSlot(state, spent).slots == [spent];
    assert [] + [SpendEntry(now, cfg.spendLimit)] == [SpendEntry(now, cfg.spendLimit)];
    hide Pick, Counted;
  }

  lemma Returning(cfg: Config, value: Key, next: Key, merchant: Key, now: int, d: Device)
    requires value != next && d.current == Some(SpentState(cfg, value, merchant, now))
    ensures Apply(cfg, d, Return(cfg, now, next)).0 == Ready(cfg, next, [SpendEntry(now, cfg.spendLimit)])
  {
    var slots := d.current.value.slots;
    assert ReconciledSlots(cfg, slots, Holding(cfg, next), now) == [Slot(cfg, next)];
    hide With;
  }

  /** What the log holds after `n` rounds: pruning leaves the last entry alone. */
  function LastEntry(cfg: Config, t0: int, n: nat): seq<SpendEntry> {
    if n == 0 then [] else [SpendEntry(Start(cfg, t0, n - 1), cfg.spendLimit)]
  }

  /** The whole limit at the start of each of `n` windows. */
  function FullWindows(cfg: Config, t0: int, n: nat): seq<SpendEntry> {
    if n == 0 then [] else FullWindows(cfg, t0, n - 1) + [SpendEntry(Start(cfg, t0, n - 1), cfg.spendLimit)]
  }

  ghost predicate RoundsDone(cfg: Config, events: seq<Event>, value: Key, t0: int, n: nat)
  {
    && Run(cfg, Device(None, None), events) == Ready(cfg, value, LastEntry(cfg, t0, n))
    && History(cfg, Device(None, None), events) == FullWindows(cfg, t0, n)
    && (forall i :: 0 <= i < |events| && IsReserve(events[i]) ==> events[i].op.now < Start(cfg, t0, n))
    && ClockMovesForward(events)
  }

  /** A spend at the start of the next window goes through. */
  lemma SpendOnce(cfg: Config, events: seq<Event>, value: Key, merchant: Key, t0: int, n: nat)
    requires Sane(cfg) && cfg.spendLimit > 0 && RoundsDone(cfg, events, value, t0, n)
    ensures var now, after := Start(cfg, t0, n), events + [Spend(cfg, merchant, Start(cfg, t0, n))];
            && Run(cfg, Device(None, None), after).current == Some(SpentState(cfg, value, merchant, now))
            && History(cfg, Device(None, None), after) == FullWindows(cfg, t0, n + 1)
            && ClockMovesForward(after)
  {
    var now, spend := Start(cfg, t0, n), Spend(cfg, merchant, Start(cfg, t0, n));
    RunOneMore(cfg, Device(None, None), events, spend);
    assert Counted(LastEntry(cfg, t0, n), now, cfg.spendLimitWindowMs) == [];
    Spending(cfg, value, LastEntry(cfg, t0, n), merchant, now);
    hide Apply, Run, Counted, History;
    assert SignedBy(cfg, Ready(cfg, value, LastEntry(cfg, t0, n)), spend) == [SpendEntry(now, cfg.spendLimit)];
  }

  lemma OneRound(cfg: Config, events: seq<Event>, value: Key, next: Key, merchant: Key, t0: int, n: nat)
    requires Sane(cfg) && cfg.spendLimit > 0 && RoundsDone(cfg, events, value, t0, n) && value != next
    ensures RoundsDone(cfg, events + [Spend(cfg, merchant, Start(cfg, t0, n))]
                       + [Return(cfg, Start(cfg, t0, n), next)], next, t0, n + 1)
  {
    hide Apply, Run, History, FullWindows;
    var now := Start(cfg, t0, n);
    var spend, back := Spend(cfg, merchant, now), Return(cfg, now, next);
    SpendOnce(cfg, events, value, merchant, t0, n);
    RunOneMore(cfg, Device(None, None), events + [spend], back);
    Returning(cfg, value, next, merchant, now, Run(cfg, Device(None, None), events + [spend]));
    var after := events + [spend] + [back];
    assert ClockMovesForward(after);
    assert forall i :: 0 <= i < |after| && IsReserve(after[i]) ==> after[i].op.now <= now;
  }

  /** After `n` rounds the slot is back, and each of the `n` windows holds the whole limit. */
  lemma {:induction false} AfterRounds(cfg: Config, supply: seq<Key>, merchant: Key, t0: int, n: nat)
    requires Sane(cfg) && cfg.spendLimit > 0 && n < |supply|
    requires forall i :: 0 < i < |supply| ==> supply[i - 1] != supply[i]
    ensures RoundsDone(cfg, Rounds(cfg, supply, merchant, t0, n), supply[n], t0, n)
  {
    hide RoundsDone;
    if n == 0 {
      NoRounds(cfg, supply[0], t0);
    } else {
      AfterRounds(cfg, supply, merchant, t0, n - 1);
      OneRound(cfg, Rounds(cfg, supply, merchant, t0, n - 1), supply[n - 1], supply[n], merchant, t0, n - 1);
    }
  }

  lemma NoRounds(cfg: Config, value: Key, t0: int)
    ensures RoundsDone(cfg, SetUp(cfg, value), value, t0, 0)
  {
    SettingUp(cfg, value);
    hide Run, History;
  }

  lemma {:induction false} FullWindowsTotal(cfg: Config, t0: int, n: nat, until: int)
    requires Sane(cfg) && (n > 0 ==> Start(cfg, t0, n - 1) < until)
    ensures Total(Between(FullWindows(cfg, t0, n), t0, until)) == cfg.spendLimit * n
  {
    if n > 0 {
      StartIs(cfg, t0, n - 1);
      assert Start(cfg, t0, n - 1) >= t0;
      FullWindowsTotal(cfg, t0, n - 1, until);
      var last := SpendEntry(Start(cfg, t0, n - 1), cfg.spendLimit);
      BetweenAppend(FullWindows(cfg, t0, n - 1), [last], t0, until);
      assert Between([last], t0, until) == [last];
      TotalAppend(Between(FullWindows(cfg, t0, n - 1), t0, until), [last]);
      assert Total([last]) == cfg.spendLimit;
      OneMore(cfg.spendLimit, n);
    }
  }

  /**
    The bound is attained: whatever successive values the chain gives the one slot, some run of the
    pool signs exactly the theft exposure between `t0` and `t0 + held`.
   */
  lemma TheBoundIsAttained(cfg: Config, supply: seq<Key>, merchant: Key, t0: int, held: nat)
    requires Sane(cfg) && |supply| == held / cfg.spendLimitWindowMs + 1
    requires forall i :: 0 < i < |supply| ==> supply[i - 1] != supply[i]
    ensures exists events ::
              && ClockMovesForward(events)
              && Total(Between(History(cfg, Device(None, None), events), t0, t0 + held + 1))
                 == TheftExposure(held, cfg.spendLimit, cfg.spendLimitWindowMs)
  {
    hide Run, History, Total, Between, TheftExposure, ClockMovesForward;
    if cfg.spendLimit == 0 {
      NothingSpent(cfg, t0, held);
    } else {
      var events := SpendEveryWindow(cfg, supply, merchant, t0, held);
    }
  }

  lemma SpendEveryWindow(cfg: Config, supply: seq<Key>, merchant: Key, t0: int, held: nat) returns (events: seq<Event>)
    requires Sane(cfg) && cfg.spendLimit > 0 && |supply| == held / cfg.spendLimitWindowMs + 1
    requires forall i :: 0 < i < |supply| ==> supply[i - 1] != supply[i]
    ensures ClockMovesForward(events)
    ensures Total(Between(History(cfg, Device(None, None), events), t0, t0 + held + 1))
            == TheftExposure(held, cfg.spendLimit, cfg.spendLimitWindowMs)
  {
    hide Run, History, Total, Between, FullWindows, RoundsDone, Rounds, ClockMovesForward;
    var k := held / cfg.spendLimitWindowMs;
    AfterRounds(cfg, supply, merchant, t0, k);
    SpendOnce(cfg, Rounds(cfg, supply, merchant, t0, k), supply[k], merchant, t0, k);
    assert Start(cfg, t0, k) <= t0 + held by {
      StartIs(cfg, t0, k);
      assert held == k * cfg.spendLimitWindowMs + held % cfg.spendLimitWindowMs;
    }
    FullWindowsTotal(cfg, t0, k + 1, t0 + held + 1);
    events := Rounds(cfg, supply, merchant, t0, k) + [Spend(cfg, merchant, Start(cfg, t0, k))];
  }

  lemma NothingSpent(cfg: Config, t0: int, held: nat)
    requires cfg.spendLimit == 0 && Sane(cfg)
    ensures ClockMovesForward([])
    ensures Total(Between(History(cfg, Device(None, None), []), t0, t0 + held + 1))
            == TheftExposure(held, cfg.spendLimit, cfg.spendLimitWindowMs)
  {
  }

  // --- a clock that moves back ---------------------------------------------------------------------

  /** The first `n` slots of a pool of three are spent, the rest hold a value and are not. */
  ghost predicate Used(d: Device, n: nat) {
    && n <= 3 && d.current.Some? && |d.current.value.slots| == 3
    && forall k :: 0 <= k < 3 ==>
                     var s := d.current.value.slots[k];
                     s.index == k && s.releasedAt.None? && (if k < n then s.state.Spent? else Usable(s))
  }

  lemma UseNext(cfg: Config, d: Device, n: nat, merchant: Key, now: int, amount: int)
    requires Used(d, n) && n < 3 && amount > 0
    requires Total(Counted(LogOf(d.current), now, cfg.spendLimitWindowMs)) + amount <= cfg.spendLimit
    ensures var (next, reply) := Apply(cfg, d, OnLedger(Reserve(merchant, now, amount, Resolved)));
            && reply.Ok? && Used(next, n + 1)
            && LogOf(next.current) == Counted(LogOf(d.current), now, cfg.spendLimitWindowMs) + [SpendEntry(now, amount)]
  {
    hide Counted, Total;
    var slots := d.current.value.slots;
    assert slots == [slots[0], slots[1], slots[2]];
    assert Usable(slots[n]) && slots[n] in slots;
    PickUnreleased(slots, n);
  }

  lemma PickUnreleased(slots: seq<PoolSlot>, n: nat)
    requires n < |slots| && Usable(slots[n]) && slots[n].releasedAt.None?
    requires forall j :: 0 <= j < n ==> !Usable(slots[j])
    ensures Pick(slots) == Some(slots[n])
    decreases n
  {
    if n > 0 {
      PickUnreleased(slots[1..], n - 1);
      assert UsableSlots(slots) == UsableSlots(slots[1..]);
    } else {
      assert UsableSlots(slots)[0] == slots[0];
    }
  }

  /** Any three values, one to a slot. */
  function ThreeValues(cfg: Config, values: nat -> Key): Answers {
    map[NonceAccount(cfg.payer, 0) := Initialized(cfg.payer, values(0), 1),
    NonceAccount(cfg.payer, 1) := Initialized(cfg.payer, values(1), 1),
    NonceAccount(cfg.payer, 2) := Initialized(cfg.payer, values(2), 1)]
  }

  function SetUpThree(cfg: Config, values: nat -> Key): seq<Event> {
    [Create(3, cfg.payer, Landed, 0, Resolved), OnLedger(Refresh(ThreeValues(cfg, values), Resolved))]
  }

  lemma SettingUpThree(cfg: Config, values: nat -> Key)
    ensures var d := Run(cfg, Device(None, None), SetUpThree(cfg, values));
            Used(d, 0) && LogOf(d.current) == []
    ensures History(cfg, Device(None, None), SetUpThree(cfg, values)) == []
  {
    var create, refresh := SetUpThree(cfg, values)[0], SetUpThree(cfg, values)[1];
    assert SetUpThree(cfg, values) == [create] + [refresh] && [create] == [] + [create];
    RunOneMore(cfg, Device(None, None), [], create);
    RunOneMore(cfg, Device(None, None), [create], refresh);
    CreatedThree(cfg, Run(cfg, Device(None, None), [create]), values);
    hide Run, History, Used;
  }

  lemma CreatedThree(cfg: Config, d: Device, values: nat -> Key)
    requires d == Apply(cfg, Device(None, None), SetUpThree(cfg, values)[0]).0
    ensures var next := Apply(cfg, d, SetUpThree(cfg, values)[1]).0; Used(next, 0) && LogOf(next.current) == []
  {
    var slots := d.current.value.slots;
    assert slots == FreshSlots(cfg.payer, 3) && AllRead(slots, ThreeValues(cfg, values));
    assert forall k :: 0 <= k < 3 ==> ValueRead(ThreeValues(cfg, values), slots[k].address) == Some(values(k));
  }

  /**
    Why the bound asks that nothing come back.  Set up a pool of three, spend the limit, wind the clock on
    by one window and spend one unit so that the first entry is pruned, then wind it back: at the first
    instant the device has then signed nearly twice its limit.
   */
  lemma AClockMovingBackBreaksTheBound(cfg: Config, values: nat -> Key, merchant: Key, t0: int)
    requires cfg.spendLimit >= 2 && cfg.spendLimitWindowMs > 0
    ensures exists events ::
              && Times(events) == [t0, t0 + cfg.spendLimitWindowMs, t0]
              && Total(Between(History(cfg, Device(None, None), events), t0, t0 + 1)) == 2 * cfg.spendLimit - 1
                 > TheftExposure(0, cfg.spendLimit, cfg.spendLimitWindowMs)
  {
    hide Apply, Used, Run, History, Counted, Total, Between;
    var limit, w, d0, setUp := cfg.spendLimit, cfg.spendLimitWindowMs, Device(None, None), SetUpThree(cfg, values);
    SettingUpThree(cfg, values);
    hide SetUpThree;
    BackAndForth(limit, w, t0);
    var e1 := OnLedger(Reserve(merchant, t0, limit, Resolved));
    var e2 := OnLedger(Reserve(merchant, t0 + w, 1, Resolved));
    var e3 := OnLedger(Reserve(merchant, t0, limit - 1, Resolved));
    var d := Run(cfg, d0, setUp);
    UseNext(cfg, d, 0, merchant, t0, limit);
    var d1 := Apply(cfg, d, e1).0;
    UseNext(cfg, d1, 1, merchant, t0 + w, 1);
    var d2 := Apply(cfg, d1, e2).0;
    UseNext(cfg, d2, 2, merchant, t0, limit - 1);
    RunOneMore(cfg, d0, setUp, e1);
    RunOneMore(cfg, d0, setUp + [e1], e2);
    RunOneMore(cfg, d0, setUp + [e1] + [e2], e3);
    assert History(cfg, d0, setUp + [e1] + [e2] + [e3])
           == [SpendEntry(t0, limit), SpendEntry(t0 + w, 1), SpendEntry(t0, limit - 1)];
    NoTimes(cfg, values);
    ThreeTimes(setUp, e1, e2, e3);
  }

  lemma ThreeTimes(events: seq<Event>, e1: Event, e2: Event, e3: Event)
    requires IsReserve(e1) && IsReserve(e2) && IsReserve(e3) && Times(events) == []
    ensures Times(events + [e1] + [e2] + [e3]) == [e1.op.now, e2.op.now, e3.op.now]
  {
    var one, two := events + [e1], events + [e1] + [e2];
    assert one[..|events|] == events && two[..|one|] == one && (two + [e3])[..|two|] == two;
    assert Times(one) == [e1.op.now];
    assert Times(two) == [e1.op.now, e2.op.now];
  }

  lemma NoTimes(cfg: Config, values: nat -> Key)
    ensures Times(SetUpThree(cfg, values)) == []
  {
    var setUp := SetUpThree(cfg, values);
    assert setUp[..1] == [setUp[0]] && setUp[..1][..0] == [];
    assert Times(setUp[..1]) == [];
  }

  /** What the log counts as the clock goes on by a window and back. */
  lemma BackAndForth(limit: int, w: int, t0: int)
    requires limit >= 2 && w > 0
    ensures Counted([], t0, w) + [SpendEntry(t0, limit)] == [SpendEntry(t0, limit)] && Total(Counted([], t0, w)) == 0
    ensures Counted([SpendEntry(t0, limit)], t0 + w, w) + [SpendEntry(t0 + w, 1)] == [SpendEntry(t0 + w, 1)]
    ensures Total(Counted([SpendEntry(t0, limit)], t0 + w, w)) == 0
    ensures Total(Counted([SpendEntry(t0 + w, 1)], t0, w)) == 1
    ensures Total(Between([SpendEntry(t0, limit), SpendEntry(t0 + w, 1), SpendEntry(t0, limit - 1)], t0, t0 + 1))
            == 2 * limit - 1
  {
    assert Counted([SpendEntry(t0, limit)], t0 + w, w) == [];
    assert Counted([SpendEntry(t0 + w, 1)], t0, w) == [SpendEntry(t0 + w, 1)];
    var h := [SpendEntry(t0, limit), SpendEntry(t0 + w, 1), SpendEntry(t0, limit - 1)];
    assert h[1..] == [SpendEntry(t0 + w, 1), SpendEntry(t0, limit - 1)] && h[1..][1..] == [SpendEntry(t0, limit - 1)];
    assert Between(h[1..][1..], t0, t0 + 1) == [SpendEntry(t0, limit - 1)];
    assert Between(h[1..], t0, t0 + 1) == [SpendEntry(t0, limit - 1)];
    assert Between(h, t0, t0 + 1) == [SpendEntry(t0, limit), SpendEntry(t0, limit - 1)];
  }
}
