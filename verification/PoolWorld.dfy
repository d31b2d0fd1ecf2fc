/**
  One payer's pool against the chain, as a state machine.  The chain keeps, for every slot, the whole
  line of values its nonce account has held; a pool operation begins, the chain goes on moving while
  it reads, and it commits with answers that were true at some moment in between.
 */
module PoolWorld {
  import opened Common
  import opened Canonical
  import opened NonceReturn
  import opened NonceCheck
  import opened PoolModel

  /** A payment handed to the payer's key: against which slot and value, for whom, and when. */
  datatype SlotPayment = SlotPayment(index: nat, value: Key, merchant: Key, at: int, landed: bool, released: bool)

  /** The values an account has held, oldest first; None while there is no account. */
  type Line = seq<Option<Key>>

  /** The lines and the clock when the running operation began. */
  datatype Busy = Busy(lines: nat -> Line, at: int)

  /** `misled` are the slots re-armed by a return for a move their account never made. */
  datatype World = World(
    device: Device,
    lines: nat -> Line,
    payments: seq<SlotPayment>,
    accepted: seq<(nat, Key)>,
    misled: set<nat>,
    clock: int,
    busy: Option<Busy>)

  datatype Step =
    | Tick(now: int)
      // Settlement: the account moves on, whether or not the transfer itself succeeds.
    | Land(payment: nat, next: Key)
    | CloseAccount(index: nat)
    | CreateAccount(index: nat, value: Key)
    | Begin
      // `created` are the values a landed setup gives the new accounts.
    | Commit(event: Event, created: nat -> Key)
    | CrashDevice
    | LoseStore

  function Holds(w: World, i: nat): Option<Key> {
    var line := w.lines(i);
    if line == [] then None else line[|line| - 1]
  }

  /** How long the line was when the running operation began; all of it when none is running. */
  function Mark(w: World, i: nat): nat {
    if w.busy.Some? then |w.busy.value.lines(i)| else |w.lines(i)|
  }

  predicate Unused(w: World, i: nat, value: Key) {
    Some(value) !in w.lines(i)
  }

  function Extend(lines: nat -> Line, i: nat, x: Option<Key>): nat -> Line {
    (j: nat) => if j == i then lines(j) + [x] else lines(j)
  }

  // --- what the network may answer -----------------------------------------------------------------

  /** The account was in this state at some moment since the operation began. */
  ghost predicate WasTrue(w: World, payer: Key, i: nat, s: NonceAccountState) {
    match s
    case Uninitialized => false
    case Absent => Mark(w, i) == 0 || exists k :: 0 <= k < |w.lines(i)| && Mark(w, i) - 1 <= k && w.lines(i)[k] == None
    case Initialized(authority, value, lamports) =>
      authority == payer && lamports > 0
      && exists k :: 0 <= k < |w.lines(i)| && Mark(w, i) - 1 <= k && w.lines(i)[k] == Some(value)
  }

  function SeenBy(e: Event): Answers {
    match e
    case OnLedger(op) => if op.Refresh? || op.Close? || op.Reconcile? then op.seen else map[]
    case Recover(_, seen, _, _) => seen
    case _ => map[]
  }

  ghost predicate TruthfulAnswers(cfg: Config, w: World, seen: Answers) {
    forall i: nat :: NonceAccount(cfg.payer, i) in seen ==> WasTrue(w, cfg.payer, i, seen[NonceAccount(cfg.payer, i)])
  }

  /** The account held `newer` at some time after it held `older`. */
  ghost predicate Advanced(w: World, i: int, older: Key, newer: Key) {
    i >= 0 && exists a, b :: 0 <= a < b < |w.lines(i)| && w.lines(i)[a] == Some(older) && w.lines(i)[b] == Some(newer)
  }

  /** Merchants sign only real advances: true statements about this payer's accounts. */
  ghost function RealAdvances(cfg: Config, w: World): iset<NonceReturnStatement> {
    iset s: NonceReturnStatement | s.payer == cfg.payer
      ==> Advanced(w, s.nonceIndex, s.spentAgainstValue, s.newNonceValue)
  }

  ghost predicate HonestReturns(cfg: Config, w: World, e: Event) {
    e.OnLedger? && e.op.NonceReturned? ==>
      forall merchant: Key :: OnlySigned(e.op.signed, merchant, RealAdvances(cfg, w))
  }

  function RecordAt(slots: seq<PoolSlot>, i: int): Option<SpentRecord> {
    match Find(slots, i) case Some(k) => slots[k].spentAgainst case None => None
  }

  /** A return that passes every check the pool makes of it, for a move the account never made. */
  ghost predicate FalseReturn(cfg: Config, w: World, e: Event, i: nat) {
    && e.OnLedger? && e.op.NonceReturned? && e.op.payload.nonceIndex == i && Loaded(w.device).Some?
    && ApplyReturn(cfg, Loaded(w.device).value, e.op.payload, e.op.signed).Ok?
    && !Advanced(w, i, RecordAt(Loaded(w.device).value.slots, i).value.value, e.op.payload.newNonceValue)
  }

  ghost function MisledBy(cfg: Config, w: World, e: Event): set<nat> {
    if e.OnLedger? && e.op.NonceReturned? && e.op.payload.nonceIndex >= 0
      && FalseReturn(cfg, w, e, e.op.payload.nonceIndex)
    then {e.op.payload.nonceIndex} else {}
  }

  // --- what an operation does on chain -------------------------------------------------------------

  predicate MayHaveLanded(setup: Setup) {
    setup.Landed? || setup.LandedUnconfirmed?
  }

  predicate Creates(cfg: Config, e: Event) {
    e.Create? && 1 <= e.size <= MAX_POOL_SIZE && e.key == cfg.payer && MayHaveLanded(e.setup)
  }

  predicate Withdraws(cfg: Config, w: World, e: Event) {
    && e.OnLedger? && e.op.Close? && Loaded(w.device).Some? && e.op.key == cfg.payer && MayHaveLanded(e.op.setup)
    && AllRead(Loaded(w.device).value.slots, e.op.seen)
  }

  ghost predicate WithdrawnAt(w: World, seen: Answers, i: nat)
    requires Loaded(w.device).Some? && AllRead(Loaded(w.device).value.slots, seen)
  {
    var slots := Loaded(w.device).value.slots;
    exists k :: 0 <= k < |slots| && slots[k].index == i && Withdrawn(slots[k], seen)
  }

  ghost function LinesAfter(cfg: Config, w: World, e: Event, created: nat -> Key): nat -> Line {
    if Creates(cfg, e) then (i: nat) => if i < e.size then w.lines(i) + [Some(created(i))] else w.lines(i)
    else if Withdraws(cfg, w, e) then (i: nat) => if WithdrawnAt(w, e.op.seen, i) then w.lines(i) + [None]
      else w.lines(i)
    else w.lines
  }

  // --- what an operation hands out -----------------------------------------------------------------

  /** `reconcile` released the slot this payment was signed against, a send window after it was. */
  ghost predicate ReleasedBy(cfg: Config, d: Device, e: Event, p: SlotPayment) {
    && e.OnLedger? && e.op.Reconcile? && Loaded(d).Some? && ReconcileRead(Loaded(d).value.slots, e.op.seen)
    && e.op.now - p.at >= cfg.sendWindowMs
    && exists s :: s in Loaded(d).value.slots && s.index == p.index && Reconcilable(s) && s.address in e.op.seen
                   && s.spentAgainst.value.value == p.value && VerdictOn(cfg, s, e.op.seen, e.op.now) == Released
  }

  ghost function Marked(cfg: Config, d: Device, e: Event, payments: seq<SlotPayment>): (r: seq<SlotPayment>)
    ensures |r| == |payments|
  {
    seq(|payments|, k requires 0 <= k < |payments| => payments[k].(released := payments[k].released
                                                                   || ReleasedBy(cfg, d, e, payments[k])))
  }

  /** A reservation that was answered is a payment: the app signs as soon as it is. */
  function HandedOut(cfg: Config, d: Device, e: Event): seq<SlotPayment> {
    var reply := Apply(cfg, d, e).1;
    if e.OnLedger? && e.op.Reserve? && reply.Ok? && reply.value.Reserved?
    then [SlotPayment(reply.value.index, reply.value.value, e.op.merchant, e.op.now, false, false)] else []
  }

  function NewlyAccepted(cfg: Config, d: Device, e: Event): seq<(nat, Key)> {
    if e.OnLedger? && e.op.NonceReturned? && Apply(cfg, d, e).1.Ok? && e.op.payload.nonceIndex >= 0
    then [(e.op.payload.nonceIndex, e.op.payload.newNonceValue)] else []
  }

  // --- steps and runs ------------------------------------------------------------------------------

  ghost predicate Enabled(cfg: Config, w: World, s: Step) {
    match s
    case Tick(now) => now >= w.clock
    case Land(k, next) => k < |w.payments| && !w.payments[k].landed
      && Holds(w, w.payments[k].index) == Some(w.payments[k].value)
                          && Unused(w, w.payments[k].index, next)
    case CloseAccount(i) => Holds(w, i).Some?
    case CreateAccount(i, value) => Holds(w, i).None? && Unused(w, i, value)
    case Begin => w.busy.None?
    case Commit(e, created) =>
      && w.busy.Some? && !e.Crash? && TruthfulAnswers(cfg, w, SeenBy(e))
      && (Creates(cfg, e) ==> forall i: nat :: i < e.size ==> Holds(w, i).None? && Unused(w, i, created(i)))
      && (Withdraws(cfg, w, e) ==> forall i: nat :: WithdrawnAt(w, e.op.seen, i) ==> Holds(w, i).Some?)
    case CrashDevice => true
    case LoseStore => true
  }

  ghost function After(cfg: Config, w: World, s: Step): World
    requires Enabled(cfg, w, s)
  {
    match s
    case Tick(now) => w.(clock := now)
    case Land(k, next) =>
      w.(payments := w.payments[k := w.payments[k].(landed := true)],
         lines := Extend(w.lines, w.payments[k].index, Some(next)))
    case CloseAccount(i) => w.(lines := Extend(w.lines, i, None))
    case CreateAccount(i, value) => w.(lines := Extend(w.lines, i, Some(value)))
    case Begin => w.(busy := Some(Busy(w.lines, w.clock)))
    case Commit(e, created) =>
      World(Apply(cfg, w.device, e).0, LinesAfter(cfg, w, e, created),
            Marked(cfg, w.device, e, w.payments) + HandedOut(cfg, w.device, e),
            w.accepted + NewlyAccepted(cfg, w.device, e), w.misled + MisledBy(cfg, w, e), w.clock, None)
    case CrashDevice => w.(device := Device(None, w.device.stored), busy := None)
    case LoseStore => w.(device := Device(None, None), busy := None)
  }

  const START: World := World(Device(None, None), (i: nat) => [], [], [], {}, 0, None)

  ghost predicate IsRun(cfg: Config, worlds: seq<World>, steps: seq<Step>) {
    && |worlds| == |steps| + 1 && worlds[0] == START
    && forall k :: 0 <= k < |steps| ==>
                     Enabled(cfg, worlds[k], steps[k]) && worlds[k + 1] == After(cfg, worlds[k], steps[k])
  }

  /** Merchants sign only real advances, all along the run. */
  ghost predicate HonestRun(cfg: Config, worlds: seq<World>, steps: seq<Step>) {
    && IsRun(cfg, worlds, steps)
    && forall k :: 0 <= k < |steps| && steps[k].Commit? ==> HonestReturns(cfg, worlds[k], steps[k].event)
  }
}
