/** Runs at which the pool's properties stop holding, each with the assumption it lacks. */
module PoolFailures {
  import opened Common
  import opened Types
  import opened Signatures
  import opened NonceReturn
  import opened SpendLog
  import opened PoolModel
  import opened PoolSpending
  import opened PoolWorld
  import opened PoolHandOuts
  import PoolAttained

  // --- a reservation that was never answered -------------------------------------------------------

  /**
    A reservation whose write fails, before or after storing, is not answered and nothing is signed;
    yet the ledger held counts it, so a device that has signed nothing may have no allowance left.
   */
  lemma AnUnansweredReservationCounts(cfg: Config, value: Key, merchant: Key, now: int, write: Write)
    requires Sane(cfg) && cfg.spendLimit > 0 && !write.Resolved?
    ensures var events := PoolAttained.SetUp(cfg, value) + [OnLedger(Reserve(merchant, now, cfg.spendLimit, write))];
            && History(cfg, Device(None, None), events) == []
            && AllowanceOf([], now, cfg.spendLimit, cfg.spendLimitWindowMs).remaining == cfg.spendLimit
            && AllowanceOf(LogOf(Loaded(Run(cfg, Device(None, None), events))), now, cfg.spendLimit,
                           cfg.spendLimitWindowMs).remaining == 0
  {
    var setUp, e := PoolAttained.SetUp(cfg, value), OnLedger(Reserve(merchant, now, cfg.spendLimit, write));
    PoolAttained.SettingUp(cfg, value);
    PoolAttained.RunOneMore(cfg, Device(None, None), setUp, e);
    assert Total(Counted([], now, cfg.spendLimitWindowMs)) == 0;
    hide Run, History;
    UnansweredSpend(cfg, value, merchant, now, write);
  }

  lemma UnansweredSpend(cfg: Config, value: Key, merchant: Key, now: int, write: Write)
    requires Sane(cfg) && cfg.spendLimit > 0 && !write.Resolved?
    ensures var e := OnLedger(Reserve(merchant, now, cfg.spendLimit, write));
            var (d, reply) := Apply(cfg, PoolAttained.Ready(cfg, value, []), e);
            && reply.Err? && SignedBy(cfg, PoolAttained.Ready(cfg, value, []), e) == []
            && AllowanceOf(LogOf(Loaded(d)), now, cfg.spendLimit, cfg.spendLimitWindowMs).remaining == 0
  {
    PoolAttained.PickOnly(cfg, value);
    hide Pick;
    var entry := SpendEntry(now, cfg.spendLimit);
    assert Total(Counted([], now, cfg.spendLimitWindowMs)) == 0 && [] + [entry] == [entry];
    assert Counted([entry], now, cfg.spendLimitWindowMs) == [entry] && Total([entry]) == cfg.spendLimit;
  }

  // --- runs, one step at a time --------------------------------------------------------------------

  function Last(worlds: seq<World>): World
    requires worlds != []
  {
    worlds[|worlds| - 1]
  }

  lemma Grow(cfg: Config, worlds: seq<World>, steps: seq<Step>, s: Step)
    requires IsRun(cfg, worlds, steps) && Enabled(cfg, Last(worlds), s)
    ensures IsRun(cfg, worlds + [After(cfg, Last(worlds), s)], steps + [s])
  {
    hide Enabled, After;
  }

  function Began(w: World): World {
    w.(busy := Some(Busy(w.lines, w.clock)))
  }

  /** An operation from beginning to end with nothing in between. */
  lemma Perform(cfg: Config, worlds: seq<World>, steps: seq<Step>, e: Event,
                created: nat -> Key) returns (ws: seq<World>, ss: seq<Step>)
    requires IsRun(cfg, worlds, steps) && Last(worlds).busy.None?
             && Enabled(cfg, Began(Last(worlds)), Commit(e, created))
    ensures IsRun(cfg, ws, ss) && |worlds| <= |ws| && ws[..|worlds|] == worlds
    ensures ss == steps + [Begin, Commit(e, created)]
    ensures Last(ws) == After(cfg, Began(Last(worlds)), Commit(e, created))
  {
    var begun, done := Began(Last(worlds)), After(cfg, Began(Last(worlds)), Commit(e, created));
    hide IsRun, Enabled, After;
    BeginIsEnabled(cfg, Last(worlds));
    Grow(cfg, worlds, steps, Begin);
    Grow(cfg, worlds + [begun], steps + [Begin], Commit(e, created));
    ws, ss := worlds + [begun] + [done], steps + [Begin] + [Commit(e, created)];
    assert ws[..|worlds|] == worlds;
  }

  lemma BeginIsEnabled(cfg: Config, w: World)
    requires w.busy.None?
    ensures Enabled(cfg, w, Begin) && After(cfg, w, Begin) == Began(w)
  {
  }

  // --- a pool of one slot --------------------------------------------------------------------------

  function Solo(cfg: Config, slot: PoolSlot, log: seq<SpendEntry>): Device {
    var state := PoolState(cfg.payer, 1, 0, [slot], Some(log));
    Device(Some(state), Some(state))
  }

  function SpentSlot(cfg: Config, value: Key, merchant: Key, now: int): PoolSlot {
    PoolAttained.Slot(cfg, value).(state := Spent, spentAgainst := Some(SpentRecord(value, merchant, now)))
  }

  function Spend(merchant: Key, now: int): Event {
    OnLedger(Reserve(merchant, now, 1, Resolved))
  }

  /** `n` payments of one unit at one moment. */
  function Ones(now: int, n: nat): (r: seq<SpendEntry>)
    ensures |r| == n
  {
    if n == 0 then [] else Ones(now, n - 1) + [SpendEntry(now, 1)]
  }

  lemma {:induction false} OnesCount(now: int, n: nat, window: int)
    requires window > 0
    ensures Counted(Ones(now, n), now, window) == Ones(now, n) && Total(Ones(now, n)) == n
  {
    if n > 0 {
      OnesCount(now, n - 1, window);
      CountedAppend(Ones(now, n - 1), [SpendEntry(now, 1)], now, window);
      TotalAppend(Ones(now, n - 1), [SpendEntry(now, 1)]);
      assert Counted([SpendEntry(now, 1)], now, window) == [SpendEntry(now, 1)];
    }
  }

  lemma SoloSpend(cfg: Config, value: Key, merchant: Key, now: int, n: nat)
    requires cfg.spendLimitWindowMs > 0 && cfg.spendLimit > n
    ensures Apply(cfg, Solo(cfg, PoolAttained.Slot(cfg, value), Ones(now, n)), Spend(merchant, now))
            == (Solo(cfg, SpentSlot(cfg, value, merchant, now), Ones(now, n + 1)), Ok(Reserved(0, value)))
  {
    PoolAttained.PickOnly(cfg, value);
    OnesCount(now, n, cfg.spendLimitWindowMs);
    hide Pick, Counted, Total;
    var state := Solo(cfg, PoolAttained.Slot(cfg, value), Ones(now, n)).current.value;
    assert WithSlot(state, SpentSlot(cfg, value, merchant, now)).slots == [SpentSlot(cfg, value, merchant, now)];
  }

  /** The merchant's return for a payment against `value`, whatever the account did. */
  function Statement(cfg: Config, value: Key, next: Key): NonceReturnStatement {
    NonceReturnStatement(cfg.payer, 0, value, next)
  }

  function Returned(cfg: Config, merchant: Key, value: Key, next: Key, signature: seq<Byte>): Event {
    OnLedger(NonceReturned(NonceReturnPayload(0, next, signature),
                           {Signed(merchant, Signatures.Return(StatementBytes(Statement(cfg, value, next))),
                                   signature)}, Resolved))
  }

  lemma SoloReturn(cfg: Config, value: Key, next: Key, merchant: Key, now: int, n: nat, signature: seq<Byte>)
    requires value != next && |signature| == SIGNATURE_BYTES
    ensures var (d, reply) := Apply(cfg, Solo(cfg, SpentSlot(cfg, value, merchant, now), Ones(now, n)),
                                    Returned(cfg, merchant, value, next, signature));
            d == Solo(cfg, PoolAttained.Slot(cfg, next), Ones(now, n)) && reply.Ok?
  {
    var state := Solo(cfg, SpentSlot(cfg, value, merchant, now), Ones(now, n)).current.value;
    var e := Returned(cfg, merchant, value, next, signature);
    GenuineReturnIsAccepted(e.op.signed, Statement(cfg, value, next), merchant, signature);
    hide StatementBytes;
    assert WithSlot(state, PoolAttained.Slot(cfg, next)).slots == [PoolAttained.Slot(cfg, next)];
  }

  // --- the same, against the chain -----------------------------------------------------------------

  const NO_VALUES: nat -> Key := (i: nat) => Repeated(0, 32)

  lemma MakingOne(cfg: Config, w: World, value: Key)
    requires w == Began(START)
    ensures var e, created := Create(1, cfg.payer, Landed, 0, Resolved), (i: nat) => value;
            && Enabled(cfg, w, Commit(e, created))
            && var v := After(cfg, w, Commit(e, created));
               && v.device == Solo(cfg, PoolAttained.Slot(cfg, value).(value := None), [])
                  && v.lines(0) == [Some(value)]
               && v.payments == [] && v.busy.None?
  {
    var e := Create(1, cfg.payer, Landed, 0, Resolved);
    assert FreshSlots(cfg.payer, 1) == [PoolAttained.Slot(cfg, value).(value := None)];
    assert Marked(cfg, w.device, e, []) == [];
  }

  lemma ReadingOne(cfg: Config, w: World, held: Option<Key>, value: Key, log: seq<SpendEntry>)
    requires w.device == Solo(cfg, PoolAttained.Slot(cfg, value).(value := held), log) && w.lines(0) == [Some(value)]
    requires w.busy == Some(Busy(w.lines, w.clock))
    ensures var e := OnLedger(Refresh(PoolAttained.Holding(cfg, value), Resolved));
            && Enabled(cfg, w, Commit(e, NO_VALUES))
            && var v := After(cfg, w, Commit(e, NO_VALUES));
               && v.device == Solo(cfg, PoolAttained.Slot(cfg, value), log) && v.lines == w.lines
                  && v.payments == w.payments && v.busy.None?
  {
    var e := OnLedger(Refresh(PoolAttained.Holding(cfg, value), Resolved));
    assert w.lines(0)[0] == Some(value);
    assert RefreshSlots(w.device.current.value.slots, PoolAttained.Holding(cfg, value))
           == [PoolAttained.Slot(cfg, value)];
    assert Marked(cfg, w.device, e, w.payments) == w.payments && w.payments + [] == w.payments;
  }

  /** An operation that is not a return accepts none and misleads nobody. */
  lemma NothingAcceptedBy(cfg: Config, w: World, e: Event, created: nat -> Key)
    requires Enabled(cfg, w, Commit(e, created)) && !(e.OnLedger? && e.op.NonceReturned?)
    ensures After(cfg, w, Commit(e, created)).accepted == w.accepted
    ensures After(cfg, w, Commit(e, created)).misled == w.misled
  {
    hide Apply, LinesAfter, Marked, HandedOut;
    assert w.accepted + [] == w.accepted && w.misled + {} == w.misled;
  }

  /** A pool of one slot is created and read: its account holds `value`. */
  lemma SetUpRun(cfg: Config, value: Key) returns (worlds: seq<World>, steps: seq<Step>)
    ensures IsRun(cfg, worlds, steps) && Last(worlds).device == Solo(cfg, PoolAttained.Slot(cfg, value), [])
    ensures Last(worlds).lines(0) == [Some(value)] && Last(worlds).payments == [] && Last(worlds).busy.None?
    ensures Last(worlds).accepted == [] && Last(worlds).misled == {}
  {
    assert IsRun(cfg, [START], []);
    MakingOne(cfg, Began(START), value);
    hide IsRun, Enabled, After;
    var create, refresh := Create(1, cfg.payer, Landed, 0, Resolved),
      OnLedger(Refresh(PoolAttained.Holding(cfg, value), Resolved));
    NothingAcceptedBy(cfg, Began(START), create, (i: nat) => value);
    var ws, ss := Perform(cfg, [START], [], create, (i: nat) => value);
    ReadingOne(cfg, Began(Last(ws)), None, value, []);
    NothingAcceptedBy(cfg, Began(Last(ws)), refresh, NO_VALUES);
    worlds, steps := Perform(cfg, ws, ss, refresh, NO_VALUES);
  }

  lemma SpendingOne(cfg: Config, w: World, value: Key, merchant: Key, now: int, n: nat)
    requires cfg.spendLimitWindowMs > 0 && cfg.spendLimit > n && w.busy.Some?
    requires w.device == Solo(cfg, PoolAttained.Slot(cfg, value), Ones(now, n))
    ensures Enabled(cfg, w, Commit(Spend(merchant, now), NO_VALUES))
    ensures var v := After(cfg, w, Commit(Spend(merchant, now), NO_VALUES));
            && v.device == Solo(cfg, SpentSlot(cfg, value, merchant, now), Ones(now, n + 1)) && v.lines == w.lines
               && v.busy.None?
            && v.payments == w.payments + [SlotPayment(0, value, merchant, now, false, false)]
  {
    SoloSpend(cfg, value, merchant, now, n);
    hide Apply, Solo, Ones;
    assert Marked(cfg, w.device, Spend(merchant, now), w.payments) == w.payments;
  }

  lemma ReturningOne(cfg: Config, w: World, value: Key, next: Key, merchant: Key, now: int, n: nat,
                     signature: seq<Byte>)
    requires value != next && |signature| == SIGNATURE_BYTES && w.busy.Some?
    requires w.device == Solo(cfg, SpentSlot(cfg, value, merchant, now), Ones(now, n))
    ensures var e := Returned(cfg, merchant, value, next, signature);
            && Enabled(cfg, w, Commit(e, NO_VALUES))
            && var v := After(cfg, w, Commit(e, NO_VALUES));
               && v.device == Solo(cfg, PoolAttained.Slot(cfg, next), Ones(now, n)) && v.lines == w.lines
                  && v.busy.None?
               && v.payments == w.payments
  {
    var e := Returned(cfg, merchant, value, next, signature);
    SoloReturn(cfg, value, next, merchant, now, n, signature);
    hide Apply, Solo, Ones, MisledBy;
    assert Marked(cfg, w.device, e, w.payments) == w.payments && w.payments + [] == w.payments;
  }

  /** One payment and its return, at whatever the slot holds. */
  lemma SpendAndReturn(cfg: Config, worlds: seq<World>, steps: seq<Step>, value: Key, next: Key, merchant: Key,
                       now: int, n: nat, signature: seq<Byte>)
    returns (ws: seq<World>, ss: seq<Step>)
    requires IsRun(cfg, worlds, steps) && Last(worlds).busy.None?
    requires cfg.spendLimitWindowMs > 0 && cfg.spendLimit > n && value != next && |signature| == SIGNATURE_BYTES
    requires Last(worlds).device == Solo(cfg, PoolAttained.Slot(cfg, value), Ones(now, n))
    ensures IsRun(cfg, ws, ss) && Last(ws).busy.None? && Last(ws).lines == Last(worlds).lines
    ensures Last(ws).device == Solo(cfg, PoolAttained.Slot(cfg, next), Ones(now, n + 1))
    ensures Last(ws).payments == Last(worlds).payments + [SlotPayment(0, value, merchant, now, false, false)]
  {
    Lengths(cfg, worlds, steps);
    hide IsRun, Enabled, After, Solo, Ones;
    SpendingOne(cfg, Began(Last(worlds)), value, merchant, now, n);
    var ws1, ss1 := Perform(cfg, worlds, steps, Spend(merchant, now), NO_VALUES);
    ReturningOne(cfg, Began(Last(ws1)), value, next, merchant, now, n + 1, signature);
    ws, ss := Perform(cfg, ws1, ss1, Returned(cfg, merchant, value, next, signature), NO_VALUES);
  }

  /**
    A merchant who signs a return for a move the account never made gets its value handed out again with
    no reconciliation: a refresh brings it back from the account, which held it all along.
   */
  lemma AFalseReturnHandsAValueOutAgain(cfg: Config, value: Key, other: Key, merchant: Key, now: int,
                                        signature: seq<Byte>)
    returns (worlds: seq<World>, steps: seq<Step>)
    requires cfg.spendLimitWindowMs > 0 && cfg.spendLimit >= 2 && value != other && |signature| == SIGNATURE_BYTES
    ensures IsRun(cfg, worlds, steps) && Last(worlds).lines(0) == [Some(value)]
    ensures Last(worlds).payments == [SlotPayment(0, value, merchant, now, false, false),
                                      SlotPayment(0, value, merchant, now, false, false)]
  {
    var ws0, ss0 := SetUpRun(cfg, value);
    assert Ones(now, 0) == [];
    assert PoolAttained.Slot(cfg, value).(value := Some(other)) == PoolAttained.Slot(cfg, other);
    hide IsRun, Enabled, After, Solo, Ones;
    var ws1, ss1 := SpendAndReturn(cfg, ws0, ss0, value, other, merchant, now, 0, signature);
    ReadingOne(cfg, Began(Last(ws1)), Some(other), value, Ones(now, 1));
    var ws2, ss2 := Perform(cfg, ws1, ss1, OnLedger(Refresh(PoolAttained.Holding(cfg, value), Resolved)), NO_VALUES);
    SpendingOne(cfg, Began(Last(ws2)), value, merchant, now, 1);
    worlds, steps := Perform(cfg, ws2, ss2, Spend(merchant, now), NO_VALUES);
  }

  // --- a close that is forgotten -------------------------------------------------------------------

  function ForgottenClose(cfg: Config, value: Key): Event {
    OnLedger(Close(cfg.payer, PoolAttained.Holding(cfg, value), Landed, RejectedBeforeStoring))
  }

  function ClosedSlot(cfg: Config, value: Key): PoolSlot {
    PoolAttained.Slot(cfg, value).(value := None, state := Unknown)
  }

  lemma ClosingOne(cfg: Config, w: World, value: Key)
    requires w.device == Solo(cfg, PoolAttained.Slot(cfg, value), []) && w.lines(0) == [Some(value)]
    requires w.payments == [] && w.busy == Some(Busy(w.lines, w.clock))
    ensures Enabled(cfg, w, Commit(ForgottenClose(cfg, value), NO_VALUES))
    ensures var v := After(cfg, w, Commit(ForgottenClose(cfg, value), NO_VALUES));
            && v.device == Device(Solo(cfg, ClosedSlot(cfg, value), []).current, w.device.stored)
            && v.lines(0) == [Some(value), None] && v.payments == [] && v.busy.None?
  {
    var e, slots := ForgottenClose(cfg, value), w.device.current.value.slots;
    assert w.lines(0)[0] == Some(value);
    assert ClosedSlots(slots) == [ClosedSlot(cfg, value)];
    assert slots[0].address in e.op.seen && Withdrawn(slots[0], e.op.seen);
    assert AllRead(slots, e.op.seen) && NeedsWithdrawal(slots, e.op.seen);
    assert WithdrawnAt(w, e.op.seen, 0);
    assert Marked(cfg, w.device, e, []) == [];
    hide Refund;
  }

  lemma Crashing(cfg: Config, w: World)
    ensures Enabled(cfg, w, CrashDevice) && After(cfg, w, CrashDevice)
            == w.(device := Device(None, w.device.stored), busy := None)
  {
  }

  /** A reservation after a reload is the reservation the stored ledger gives. */
  lemma ReloadedSpend(cfg: Config, w: World, value: Key, merchant: Key, now: int)
    requires cfg.spendLimitWindowMs > 0 && cfg.spendLimit > 0 && w.busy.Some?
    requires w.device == Device(None, Solo(cfg, PoolAttained.Slot(cfg, value), []).stored)
    ensures Enabled(cfg, w, Commit(Spend(merchant, now), NO_VALUES))
    ensures var v := After(cfg, w, Commit(Spend(merchant, now), NO_VALUES));
            v.lines == w.lines && v.payments == w.payments + [SlotPayment(0, value, merchant, now, false, false)]
  {
    var whole := Solo(cfg, PoolAttained.Slot(cfg, value), []);
    assert Ones(now, 0) == [];
    SoloSpend(cfg, value, merchant, now, 0);
    SameAfterReload(cfg, w.device, whole, Spend(merchant, now));
    hide Apply, Solo, Ones;
    assert Marked(cfg, w.device, Spend(merchant, now), w.payments) == w.payments;
  }

  lemma SameAfterReload(cfg: Config, d: Device, whole: Device, e: Event)
    requires d.stored == whole.stored && Loaded(d) == Loaded(whole) && e.OnLedger?
    ensures Apply(cfg, d, e).1 == Apply(cfg, whole, e).1
  {
    hide Operate;
  }

  /**
    Why an unknown slot is safe only once both ledgers hold it so.  A close withdraws the one account
    and its write is rejected before storing; memory holds the slot unknown, but after a crash the
    stored ledger hands the closed account's value out, with no create since.
   */
  lemma ARejectedCloseIsForgotten(cfg: Config, value: Key, merchant: Key, now: int) returns (worlds: seq<World>,
                                  steps: seq<Step>, b: nat)
    requires cfg.spendLimitWindowMs > 0 && cfg.spendLimit > 0
    ensures IsRun(cfg, worlds, steps) && b + 3 == |steps|
    ensures worlds[b].device.current.Some? && OnlyUnknownIn(worlds[b].device.current, 0) && worlds[b].payments == []
    ensures steps[b..] == [CrashDevice, Begin, Commit(Spend(merchant, now), NO_VALUES)]
    ensures Last(worlds).payments == [SlotPayment(0, value, merchant, now, false, false)]
            && Holds(Last(worlds), 0) == None
  {
    var ws0, ss0 := SetUpRun(cfg, value);
    ClosingOne(cfg, Began(Last(ws0)), value);
    assert |ws0| == |ss0| + 1;
    hide IsRun, Enabled, After;
    var ws1, ss1 := Perform(cfg, ws0, ss0, ForgottenClose(cfg, value), NO_VALUES);
    var closed := Last(ws1);
    Crashing(cfg, closed);
    Grow(cfg, ws1, ss1, CrashDevice);
    var crashed := After(cfg, closed, CrashDevice);
    var ws2, ss2 := ws1 + [crashed], ss1 + [CrashDevice];
    ReloadedSpend(cfg, Began(crashed), value, merchant, now);
    worlds, steps := Perform(cfg, ws2, ss2, Spend(merchant, now), NO_VALUES);
    b := |ss1|;
    Lengths(cfg, ws1, ss1);
    Lengths(cfg, worlds, steps);
    assert worlds[b] == worlds[..|ws2|][b] == closed;
  }

  lemma Lengths(cfg: Config, worlds: seq<World>, steps: seq<Step>)
    requires IsRun(cfg, worlds, steps)
    ensures |worlds| == |steps| + 1
  {
    hide Enabled, After;
  }
}
