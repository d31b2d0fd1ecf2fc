/**
  The payer's pool as values: what each operation does to the ledger, given what the network and the
  store answered.  `Apply` is one whole operation of a device whose ledger may be in memory, in the
  store, in both or in neither.
 */
module PoolModel {
  import opened Common
  import opened Types
  import opened Canonical
  import opened Signatures
  import opened NonceReturn
  import opened NonceCheck
  import opened SpendLog

  const MAX_POOL_SIZE: int := 256

  datatype SlotState = Unspent | Spent | Unknown

  datatype SpentRecord = SpentRecord(value: Key, merchant: Key, at: int)

  datatype PoolSlot = PoolSlot(
    index: nat,
    address: Account,
    value: Option<Key>,
    state: SlotState,
    spentAgainst: Option<SpentRecord>,
    releasedAt: Option<int>)

  /** `spendLog` is absent in a ledger written before there was one. */
  datatype PoolState = PoolState(payer: Key, size: nat, epoch: int, slots: seq<PoolSlot>,
                                 spendLog: Option<seq<SpendEntry>>)

  datatype Config = Config(payer: Key, sendWindowMs: int, spendLimit: int, spendLimitWindowMs: int)

  // --- what the outside answered -------------------------------------------------------------------

  /** `getNonceAccount` for every address an operation asks about; a missing address is a failed call. */
  type Answers = map<Account, NonceAccountState>

  /** What became of `store.set`.  Memory holds the new ledger in all three cases. */
  datatype Write = Resolved | RejectedAfterStoring | RejectedBeforeStoring

  /** What became of `sendSetup`; an unconfirmed transaction may have landed all the same. */
  datatype Setup = Underfunded | NotLanded | LandedUnconfirmed | Landed

  // --- slots ---------------------------------------------------------------------------------------

  function Rearmed(slot: PoolSlot, value: Option<Key>, state: SlotState := Unspent,
                   releasedAt: Option<int> := None): PoolSlot {
    PoolSlot(slot.index, slot.address, value, state, None, releasedAt)
  }

  function WithSlot(state: PoolState, slot: PoolSlot): PoolState {
    state.(slots := seq(|state.slots|, k requires 0 <= k < |state.slots| =>
      if state.slots[k].index == slot.index then slot else state.slots[k]))
  }

  /** First slot with this index. */
  function Find(slots: seq<PoolSlot>, index: int): (r: Option<nat>)
    ensures r.Some? ==> r.value < |slots| && slots[r.value].index == index
    ensures r.None? ==> forall k :: 0 <= k < |slots| ==> slots[k].index != index
  {
    if slots == [] then None
    else if slots[0].index == index then Some(0)
    else match Find(slots[1..], index) case None => None case Some(k) => Some(k + 1)
  }

  predicate Distinct(slots: seq<PoolSlot>) {
    forall j, k :: 0 <= j < k < |slots| ==> slots[j].index != slots[k].index
  }

  function LogOf(state: Option<PoolState>): seq<SpendEntry> {
    if state.Some? && state.value.spendLog.Some? then state.value.spendLog.value else []
  }

  // --- reserveSlot ---------------------------------------------------------------------------------

  predicate Usable(slot: PoolSlot) {
    slot.state.Unspent? && slot.value.Some?
  }

  /** `slots.filter(usable)`. */
  function UsableSlots(slots: seq<PoolSlot>): (r: seq<PoolSlot>)
    ensures forall s :: s in r <==> s in slots && Usable(s)
  {
    if slots == [] then []
    else
      assert slots == [slots[0]] + slots[1..];
      (if Usable(slots[0]) then [slots[0]] else []) + UsableSlots(slots[1..])
  }

  /** `find(candidate => candidate.releasedAt === undefined)`. */
  function FirstUnreleased(slots: seq<PoolSlot>): (r: Option<PoolSlot>)
    ensures r.Some? ==> r.value in slots && r.value.releasedAt.None?
    ensures r.None? ==> forall s :: s in slots ==> s.releasedAt.Some?
  {
    if slots == [] then None
    else if slots[0].releasedAt.None? then Some(slots[0])
    else
      assert slots == [slots[0]] + slots[1..];
      FirstUnreleased(slots[1..])
  }

  function ReleaseTime(slot: PoolSlot): int {
    match slot.releasedAt case None => 0 case Some(t) => t
  }

  /** The stable sort by release time, one insertion at a time. */
  function InsertByRelease(slot: PoolSlot, sorted: seq<PoolSlot>): (r: seq<PoolSlot>)
    ensures multiset(r) == multiset(sorted) + multiset{slot}
  {
    if sorted == [] then [slot]
    else if ReleaseTime(slot) <= ReleaseTime(sorted[0]) then [slot] + sorted
    else
      assert sorted == [sorted[0]] + sorted[1..];
      [sorted[0]] + InsertByRelease(slot, sorted[1..])
  }

  function SortByRelease(slots: seq<PoolSlot>): (r: seq<PoolSlot>)
    ensures multiset(r) == multiset(slots)
  {
    if slots == [] then []
    else
      assert slots == [slots[0]] + slots[1..];
      InsertByRelease(slots[0], SortByRelease(slots[1..]))
  }

  /** The slot `reserveSlot` hands out. */
  function Pick(slots: seq<PoolSlot>): (r: Option<PoolSlot>)
    ensures r.Some? ==> r.value in slots && Usable(r.value)
    ensures r.None? <==> forall s :: s in slots ==> !Usable(s)
  {
    var usable := UsableSlots(slots);
    var unreleased := FirstUnreleased(usable);
    if unreleased.Some? then unreleased
    else
      var sorted := SortByRelease(usable);
      if sorted == [] then
        assert |usable| == |multiset(usable)| == 0;
        None
      else
        assert sorted[0] in multiset(sorted);
        Some(sorted[0])
  }

  function ReserveSlot(cfg: Config, state: PoolState, merchant: Key, now: int,
                       amount: int): (r: Result<(PoolState, PoolSlot)>)
    ensures r.Ok? ==> r.value.1 in state.slots && Usable(r.value.1)
    ensures r.Ok? ==> 0 < amount <= AllowanceOf(LogOf(Some(state)), now, cfg.spendLimit,
                                                cfg.spendLimitWindowMs).remaining
  {
    if amount <= 0 then Err(LIMIT_PAYER_ALLOWANCE)
    else if amount > AllowanceOf(LogOf(Some(state)), now, cfg.spendLimit, cfg.spendLimitWindowMs).remaining
      then Err(LIMIT_PAYER_ALLOWANCE)
    else
      match Pick(state.slots)
      case None => Err(NONCE_POOL_EXHAUSTED)
      case Some(slot) =>
        var spendLog := Counted(LogOf(Some(state)), now, cfg.spendLimitWindowMs) + [SpendEntry(now, amount)];
        var spent := slot.(state := Spent, spentAgainst := Some(SpentRecord(slot.value.value, merchant, now)));
        Ok((WithSlot(state, spent).(spendLog := Some(spendLog)), slot))
  }

  // --- applyNonceReturn ----------------------------------------------------------------------------

  function ApplyReturn(cfg: Config, state: PoolState, payload: NonceReturnPayload,
                       signed: set<Signed>): (r: Result<PoolState>)
  {
    match Find(state.slots, payload.nonceIndex)
    case None => Err(NONCE_RETURN_UNTRUSTED)
    case Some(k) =>
      var slot := state.slots[k];
      if !slot.state.Spent? || slot.spentAgainst.None? then Err(NONCE_RETURN_UNTRUSTED)
      else
        var record := slot.spentAgainst.value;
        var verified := VerifyNonceReturn(signed, payload, cfg.payer, record.merchant, record.value);
        if verified.Err? then Err(verified.code)
        else Ok(WithSlot(state, Rearmed(slot, Some(payload.newNonceValue))))
  }

  // --- refresh, recover, create, close -------------------------------------------------------------

  function ValueRead(seen: Answers, address: Account): Option<Key>
    requires address in seen
  {
    match seen[address] case Initialized(_, value, _) => Some(value) case _ => None
  }

  function LamportsRead(seen: Answers, address: Account): int
    requires address in seen
  {
    match seen[address] case Initialized(_, _, lamports) => lamports case _ => 0
  }

  predicate AllRead(slots: seq<PoolSlot>, seen: Answers) {
    forall k :: 0 <= k < |slots| ==> slots[k].address in seen
  }

  function RefreshSlots(slots: seq<PoolSlot>, seen: Answers): (r: seq<PoolSlot>)
    requires AllRead(slots, seen)
    ensures |r| == |slots|
  {
    seq(|slots|, k requires 0 <= k < |slots| => slots[k].(value := ValueRead(seen, slots[k].address)))
  }

  function FreshSlots(payer: Key, size: nat): (r: seq<PoolSlot>) {
    seq(size, k requires 0 <= k < size => PoolSlot(k, NonceAccount(payer, k), None, Unspent, None, None))
  }

  /** The slots `recover` finds, probing from `index` up to `maxProbe`. */
  function Probe(payer: Key, seen: Answers, index: nat, maxProbe: int): (r: Result<seq<PoolSlot>>)
    ensures r.Ok? ==> forall k :: 0 <= k < |r.value| ==>
                                    index <= r.value[k].index < maxProbe && r.value[k].state.Unknown?
    ensures r.Ok? ==> forall j, k :: 0 <= j < k < |r.value| ==> r.value[j].index < r.value[k].index
    decreases maxProbe - index
  {
    if index >= maxProbe then Ok([])
    else if index > 255 then Err(NONCE_INDEX_OUT_OF_RANGE)
    else if NonceAccount(payer, index) !in seen then Err(FOREIGN_EXCEPTION)
    else
      var address := NonceAccount(payer, index);
      var rest := Probe(payer, seen, index + 1, maxProbe);
      if rest.Err? then rest
      else
        match seen[address]
        case Initialized(authority, value, _) =>
          if authority == payer then Ok([PoolSlot(index, address, Some(value), Unknown, None, None)] + rest.value)
            else rest
        case _ => rest
  }

  function ClosedSlots(slots: seq<PoolSlot>): (r: seq<PoolSlot>) {
    seq(|slots|, k requires 0 <= k < |slots| => Rearmed(slots[k], None, Unknown))
  }

  /** What `close` withdraws: from each account that holds lamports, all it holds. */
  function Withdrawals(slots: seq<PoolSlot>, seen: Answers): seq<(Account, int)>
    requires AllRead(slots, seen)
  {
    if slots == [] then []
    else
      var address := slots[|slots| - 1].address;
      Withdrawals(slots[..|slots| - 1], seen)
      + if LamportsRead(seen, address) != 0 then [(address, LamportsRead(seen, address))] else []
  }

  function Lamports(withdrawals: seq<(Account, int)>): int {
    if withdrawals == [] then 0
    else Lamports(withdrawals[..|withdrawals| - 1]) + withdrawals[|withdrawals| - 1].1
  }

  function Refund(slots: seq<PoolSlot>, seen: Answers): int
    requires AllRead(slots, seen)
  {
    Lamports(Withdrawals(slots, seen))
  }

  /** The slots whose account `close` withdraws. */
  predicate Withdrawn(slot: PoolSlot, seen: Answers)
    requires slot.address in seen
  {
    LamportsRead(seen, slot.address) != 0
  }

  // --- reconcile -----------------------------------------------------------------------------------

  datatype Verdict = Untouched | Gone | Settled | Released | Pending

  predicate Reconcilable(slot: PoolSlot) {
    slot.state.Spent? && slot.spentAgainst.Some?
  }

  predicate ReconcileRead(slots: seq<PoolSlot>, seen: Answers) {
    forall k :: 0 <= k < |slots| && Reconcilable(slots[k]) ==> slots[k].address in seen
  }

  function VerdictOn(cfg: Config, slot: PoolSlot, seen: Answers, now: int): Verdict
    requires Reconcilable(slot) ==> slot.address in seen
  {
    if !Reconcilable(slot) then Untouched
    else
      match ValueRead(seen, slot.address)
      case None => Gone
      case Some(value) =>
        if value != slot.spentAgainst.value.value then Settled
        else if now - slot.spentAgainst.value.at >= cfg.sendWindowMs then Released
        else Pending
  }

  function ReconciledSlot(cfg: Config, slot: PoolSlot, seen: Answers, now: int): (r: PoolSlot)
    requires Reconcilable(slot) ==> slot.address in seen
    ensures r.index == slot.index && r.address == slot.address
  {
    match VerdictOn(cfg, slot, seen, now)
    case Gone => Rearmed(slot, None, Unknown)
    case Settled => Rearmed(slot, ValueRead(seen, slot.address))
    case Released => Rearmed(slot, ValueRead(seen, slot.address), Unspent, Some(now))
    case _ => slot
  }

  function ReconciledSlots(cfg: Config, slots: seq<PoolSlot>, seen: Answers, now: int): (r: seq<PoolSlot>)
    requires ReconcileRead(slots, seen)
    ensures |r| == |slots|
  {
    seq(|slots|, k requires 0 <= k < |slots| => ReconciledSlot(cfg, slots[k], seen, now))
  }

  /** Indices of the slots with one of these verdicts, in slot order. */
  function With(cfg: Config, slots: seq<PoolSlot>, seen: Answers, now: int, verdicts: set<Verdict>): (r: seq<nat>)
    requires ReconcileRead(slots, seen)
    ensures forall i :: i in r <==>
                        exists k :: 0 <= k < |slots| && slots[k].index == i
                                    && VerdictOn(cfg, slots[k], seen, now) in verdicts
  {
    if slots == [] then []
    else
      var last := slots[|slots| - 1];
      With(cfg, slots[..|slots| - 1], seen, now, verdicts)
        + (if VerdictOn(cfg, last, seen, now) in verdicts then [last.index] else [])
  }

  // --- a device ------------------------------------------------------------------------------------

  /** The ledger in memory and the ledger in the store. */
  datatype Device = Device(current: Option<PoolState>, stored: Option<PoolState>)

  datatype Reply =
    | Status(state: PoolState)
    | Reserved(index: nat, value: Key)
    | Refunded(lamports: int)
    | Reconciled(released: seq<nat>, settled: seq<nat>, stillPending: seq<nat>)

  function Loaded(d: Device): Option<PoolState> {
    if d.current.Some? then d.current else d.stored
  }

  function Persist(d: Device, state: PoolState, write: Write): Device {
    Device(Some(state), if write.RejectedBeforeStoring? then d.stored else Some(state))
  }

  function Answer(write: Write, reply: Reply): Result<Reply> {
    if write.Resolved? then Ok(reply) else Err(FOREIGN_EXCEPTION)
  }

  /** An operation that needs a ledger to start from. */
  datatype Operation =
    | Load
    | Reserve(merchant: Key, now: int, amount: int, write: Write)
    | NonceReturned(payload: NonceReturnPayload, signed: set<Signed>, write: Write)
    | Refresh(seen: Answers, write: Write)
    | Close(key: Key, seen: Answers, setup: Setup, write: Write)
    | Reconcile(now: int, seen: Answers, write: Write)

  datatype Event =
    | OnLedger(op: Operation)
    | Recover(maxProbe: int, seen: Answers, epoch: int, write: Write)
      // Everything `create` does before it ends in a refresh.
    | Create(size: int, key: Key, setup: Setup, epoch: int, write: Write)
      // The process dies: memory is gone, the store stays.
    | Crash

  predicate NeedsWithdrawal(slots: seq<PoolSlot>, seen: Answers)
    requires AllRead(slots, seen)
  {
    exists k :: 0 <= k < |slots| && Withdrawn(slots[k], seen)
  }

  /** The new ledger an operation writes and its reply, or the error before it writes anything. */
  function Operate(cfg: Config, state: PoolState, op: Operation): (r: Result<(PoolState, Reply)>) {
    match op
    case Load => Ok((state, Status(state)))
    case Reserve(merchant, now, amount, _) =>
      var reserved := ReserveSlot(cfg, state, merchant, now, amount);
      if reserved.Err? then Err(reserved.code)
      else Ok((reserved.value.0, Reserved(reserved.value.1.index, reserved.value.1.value.value)))
    case NonceReturned(payload, signed, _) =>
      var next := ApplyReturn(cfg, state, payload, signed);
      if next.Err? then Err(next.code) else Ok((next.value, Status(next.value)))
    case Refresh(seen, _) =>
      if !AllRead(state.slots, seen) then Err(FOREIGN_EXCEPTION)
      else
        var next := state.(slots := RefreshSlots(state.slots, seen));
        Ok((next, Status(next)))
    case Close(key, seen, setup, _) =>
      if key != cfg.payer then Err(CANON_ACCOUNT_MISMATCH)
      else if setup.Underfunded? then Err(NONCE_POOL_UNDERFUNDED)
      else if !AllRead(state.slots, seen) then Err(FOREIGN_EXCEPTION)
      else if NeedsWithdrawal(state.slots, seen) && !setup.Landed? then Err(FOREIGN_EXCEPTION)
      else Ok((state.(slots := ClosedSlots(state.slots)), Refunded(Refund(state.slots, seen))))
    case Reconcile(now, seen, _) =>
      if !ReconcileRead(state.slots, seen) then Err(FOREIGN_EXCEPTION)
      else
        Ok((state.(slots := ReconciledSlots(cfg, state.slots, seen, now)),
            Reconciled(With(cfg, state.slots, seen, now, {Gone, Released}),
                       With(cfg, state.slots, seen, now, {Settled}),
                       With(cfg, state.slots, seen, now, {Pending}))))
  }

  function WriteOf(op: Operation): Write {
    if op.Load? then Resolved else op.write
  }

  /** `create` up to its refresh: the ledger it writes, or the error before. */
  function Created(cfg: Config, d: Device, size: int, key: Key, setup: Setup, epoch: int): (r: Result<PoolState>) {
    if size < 1 || size > MAX_POOL_SIZE then Err(NONCE_INDEX_OUT_OF_RANGE)
    else if key != cfg.payer then Err(CANON_ACCOUNT_MISMATCH)
    else if setup.Underfunded? then Err(NONCE_POOL_UNDERFUNDED)
    else if !setup.Landed? then Err(FOREIGN_EXCEPTION)
    else Ok(PoolState(cfg.payer, size, epoch, FreshSlots(cfg.payer, size), Some(LogOf(Loaded(d)))))
  }

  function RecoveredState(cfg: Config, d: Device, maxProbe: int, seen: Answers, epoch: int): (r: Result<PoolState>) {
    var slots := Probe(cfg.payer, seen, 0, maxProbe);
    if slots.Err? then Err(slots.code)
    else if slots.value == [] then Err(NONCE_LEDGER_MISSING)
    else Ok(PoolState(cfg.payer, slots.value[|slots.value| - 1].index + 1, epoch, slots.value, Some(LogOf(Loaded(d)))))
  }

  /** One operation of a device, from call to answer. */
  function Apply(cfg: Config, d: Device, e: Event): (r: (Device, Result<Reply>)) {
    match e
    case Crash => (Device(None, d.stored), Err(FOREIGN_EXCEPTION))
    case Recover(maxProbe, seen, epoch, write) =>
      var next := RecoveredState(cfg, d, maxProbe, seen, epoch);
      if next.Err? then (d, Err(next.code)) else (Persist(d, next.value, write), Answer(write, Status(next.value)))
    case Create(size, key, setup, epoch, write) =>
      var next := Created(cfg, d, size, key, setup, epoch);
      if next.Err? then (d, Err(next.code)) else (Persist(d, next.value, write), Answer(write, Status(next.value)))
    case OnLedger(op) =>
      if Loaded(d).None? then (d, Err(NONCE_LEDGER_MISSING))
      else
        var l, done := Device(Loaded(d), d.stored), Operate(cfg, Loaded(d).value, op);
        if done.Err? then (l, Err(done.code))
        else if op.Load? then (l, Ok(done.value.1))
        else (Persist(l, done.value.0, WriteOf(op)), Answer(WriteOf(op), done.value.1))
  }

  predicate ValidDevice(d: Device) {
    && (d.current.Some? ==> Distinct(d.current.value.slots))
    && (d.stored.Some? ==> Distinct(d.stored.value.slots))
  }

  /** No operation ever writes two slots with one index. */
  lemma ApplyKeepsValid(cfg: Config, d: Device, e: Event)
    requires ValidDevice(d)
    ensures ValidDevice(Apply(cfg, d, e).0)
  {
    if e.OnLedger? && Loaded(d).Some? {
      OperateKeepsIndices(cfg, Loaded(d).value, e.op);
      hide Operate;
    } else {
      hide Operate, LogOf;
    }
  }

  lemma OperateKeepsIndices(cfg: Config, state: PoolState, op: Operation)
    ensures Operate(cfg, state, op).Ok? ==>
              var next := Operate(cfg, state, op).value.0.slots;
              |next| == |state.slots| && forall k :: 0 <= k < |next| ==> next[k].index == state.slots[k].index
  {
    hide Pick, Counted, With, Refund, VerifyNonceReturn;
  }
}
