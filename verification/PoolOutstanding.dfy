/**
  What slot safety means for the payments themselves, over every run of the pool against the chain:
  each nonce value settles at most one payment, what a release proves, and that an outstanding payment
  is never made stale by its own honest pool.
 */
module PoolOutstanding {
  import opened Common
  import opened Canonical
  import opened NonceCheck
  import opened PoolModel
  import opened PoolWorld
  import opened PoolSafety
  import opened PoolRuns
  import opened PoolHandOuts

  // --- landing -------------------------------------------------------------------------------------

  /** Steps at which nothing lands: accounts close or open, time passes, an operation begins, ends or dies. */
  ghost predicate NothingLands(w: World, v: World) {
    && |w.payments| <= |v.payments|
    && (forall k :: 0 <= k < |w.payments| ==> v.payments[k] == w.payments[k].(released := v.payments[k].released))
    && (forall k :: |w.payments| <= k < |v.payments| ==> !v.payments[k].landed && !v.payments[k].released)
    && (forall i :: v.lines(i) == w.lines(i) || v.lines(i) == w.lines(i) + [None]
                    || (Holds(w, i).None? && exists x: Option<Key> :: v.lines(i) == w.lines(i) + [x]))
    && (v.busy == w.busy || v.busy.None?
        || (w.busy.None? && v.busy == Some(Busy(w.lines, w.clock)) && v.lines == w.lines))
    && w.clock <= v.clock
  }

  lemma CommitLandsNothing(cfg: Config, w: World, e: Event, created: nat -> Key)
    requires Enabled(cfg, w, Commit(e, created))
    ensures NothingLands(w, After(cfg, w, Commit(e, created)))
  {
    var v := After(cfg, w, Commit(e, created));
    hide Apply, HonestReturns, TruthfulAnswers, ReleasedBy, WithdrawnAt;
    assert forall k :: |w.payments| <= k < |v.payments| ==>
                         v.payments[k] == HandedOut(cfg, w.device, e)[k - |w.payments|];
  }

  lemma StepLandsNothing(cfg: Config, w: World, s: Step)
    requires Enabled(cfg, w, s) && !s.Land?
    ensures NothingLands(w, After(cfg, w, s))
  {
    if s.Commit? {
      CommitLandsNothing(cfg, w, s.event, s.created);
    } else {
      hide Apply, LinesAfter, Marked, HandedOut, MisledBy;
    }
  }

  /** The account once held the payment's value and holds it no longer. */
  ghost predicate Gone(w: World, p: SlotPayment) {
    exists a :: HeldAt(w, p.index, p.value, a) && a + 1 < |w.lines(p.index)|
  }

  ghost predicate LandedAreGone(w: World) {
    && (forall k :: 0 <= k < |w.payments| && w.payments[k].landed ==> Gone(w, w.payments[k]))
    && (forall j, k | 0 <= j < k < |w.payments| && w.payments[j].landed && w.payments[k].landed
          :: !Against(w.payments[k], w.payments[j].index, w.payments[j].value))
  }

  lemma GoneStays(w: World, v: World, p: SlotPayment, q: SlotPayment)
    requires Gone(w, p) && w.lines(p.index) <= v.lines(p.index) && Against(q, p.index, p.value)
    ensures Gone(v, q)
  {
    var a :| HeldAt(w, p.index, p.value, a) && a + 1 < |w.lines(p.index)|;
    assert HeldAt(v, q.index, q.value, a);
  }

  lemma LandKeepsGone(cfg: Config, w: World, k: nat, next: Key)
    requires Enabled(cfg, w, Land(k, next)) && LandedAreGone(w) && forall i :: NeverRepeats(w.lines(i))
    ensures LandedAreGone(After(cfg, w, Land(k, next)))
  {
    var v, p := After(cfg, w, Land(k, next)), w.payments[k];
    var last := |w.lines(p.index)| - 1;
    assert HeldAt(v, p.index, p.value, last) && HeldAt(w, p.index, p.value, last);
    forall j | 0 <= j < |v.payments| && v.payments[j].landed
      ensures Gone(v, v.payments[j]) && (j != k ==> !Against(w.payments[j], p.index, p.value))
    {
      if j != k {
        GoneStays(w, v, w.payments[j], v.payments[j]);
        var a :| HeldAt(w, w.payments[j].index, w.payments[j].value, a) && a + 1 < |w.lines(w.payments[j].index)|;
      }
    }
  }

  lemma NothingLandsKeepsGone(w: World, v: World)
    requires NothingLands(w, v) && LandedAreGone(w)
    ensures LandedAreGone(v)
  {
    forall j | 0 <= j < |v.payments| && v.payments[j].landed
      ensures Gone(v, v.payments[j])
    {
      GoneStays(w, v, w.payments[j], v.payments[j]);
    }
    hide Gone;
  }

  lemma {:induction false} RunsLandOnce(cfg: Config, worlds: seq<World>, steps: seq<Step>, m: nat)
    requires IsRun(cfg, worlds, steps) && m <= |steps|
    ensures LandedAreGone(worlds[m])
    decreases m
  {
    hide Enabled, After, NothingLands, Gone;
    if m > 0 {
      RunsLandOnce(cfg, worlds, steps, m - 1);
      RunStep(cfg, worlds, steps, m - 1);
      var w, s := worlds[m - 1], steps[m - 1];
      if s.Land? {
        InvAt(cfg, worlds, steps, m - 1);
        LandKeepsGone(cfg, w, s.payment, s.next);
      } else {
        StepLandsNothing(cfg, w, s);
        NothingLandsKeepsGone(w, worlds[m]);
      }
    }
  }

  /** In every run each nonce value settles at most one payment, however late and whatever was released. */
  lemma SettlesAtMostOnce(cfg: Config, worlds: seq<World>, steps: seq<Step>, j: nat, k: nat)
    requires IsRun(cfg, worlds, steps) && j < k < |worlds[|steps|].payments|
    requires worlds[|steps|].payments[j].landed && worlds[|steps|].payments[k].landed
    ensures !Against(worlds[|steps|].payments[k], worlds[|steps|].payments[j].index, worlds[|steps|].payments[j].value)
  {
    RunsLandOnce(cfg, worlds, steps, |steps|);
  }

  /** What the network answers about slot `i` at this moment. */
  predicate AccountNow(cfg: Config, w: World, i: nat, account: NonceAccountState) {
    match Holds(w, i)
    case None => account == Absent
    case Some(value) => account.Initialized? && account.authority == cfg.payer && account.value == value
  }

  /**
    What a merchant's check is worth, in every run and whatever was signed or misled: made of the account
    as it is, it passes exactly when the account holds the value claimed, and then no payment against
    that value has landed.
   */
  lemma PassingMeansUnspent(cfg: Config, worlds: seq<World>, steps: seq<Step>, m: nat, i: nat, value: Key,
                            account: NonceAccountState)
    requires IsRun(cfg, worlds, steps) && m <= |steps| && AccountNow(cfg, worlds[m], i, account)
    ensures Check(account, cfg.payer, value).Passes? <==> Holds(worlds[m], i) == Some(value)
    ensures Check(account, cfg.payer, value).Stale? <==> Holds(worlds[m], i) !in {None, Some(value)}
    ensures Check(account, cfg.payer, value).Passes? ==>
              forall k :: 0 <= k < |worlds[m].payments| && Against(worlds[m].payments[k], i, value)
                          ==> !worlds[m].payments[k].landed
  {
    CheckTells(account, cfg.payer, value);
    RunsLandOnce(cfg, worlds, steps, m);
    InvAt(cfg, worlds, steps, m);
    var w := worlds[m];
    hide IsRun, Check;
    forall k | 0 <= k < |w.payments| && Against(w.payments[k], i, value) && w.payments[k].landed
      ensures Holds(w, i) != Some(value)
    {
      GoneHasMoved(w, w.payments[k]);
    }
  }

  lemma GoneHasMoved(w: World, p: SlotPayment)
    requires Gone(w, p) && NeverRepeats(w.lines(p.index))
    ensures Holds(w, p.index) != Some(p.value)
  {
    var a :| HeldAt(w, p.index, p.value, a) && a + 1 < |w.lines(p.index)|;
  }

  // --- what a release proves -----------------------------------------------------------------------

  /** The answer that released the payment's slot: its value, seen since the reconciliation began. */
  lemma SeenWhileReleasing(cfg: Config, w: World, e: Event, created: nat -> Key, k: nat) returns (at: int)
    requires Inv(cfg, w) && Enabled(cfg, w, Commit(e, created))
    requires k < |w.payments| && ReleasedBy(cfg, w.device, e, w.payments[k])
    ensures HeldAt(w, w.payments[k].index, w.payments[k].value, at) && Mark(w, w.payments[k].index) - 1 <= at
  {
    var p := w.payments[k];
    var s :| s in Loaded(w.device).value.slots && s.index == p.index && Reconcilable(s) && s.address in e.op.seen
             && s.spentAgainst.value.value == p.value && VerdictOn(cfg, s, e.op.seen, e.op.now) == Released;
    assert s.address == NonceAccount(cfg.payer, s.index);
    assert WasTrue(w, cfg.payer, p.index, e.op.seen[s.address]);
    at :| 0 <= at < |w.lines(p.index)| && Mark(w, p.index) - 1 <= at && w.lines(p.index)[at] == Some(p.value);
  }

  /** The operation that commits at step `n` began at step `b`. */
  predicate SameOperation(steps: seq<Step>, b: nat, n: nat) {
    && b < n < |steps| && steps[b].Begin?
    && forall m :: b < m < n ==> !steps[m].Commit? && !steps[m].CrashDevice? && !steps[m].LoseStore?
  }

  lemma WhileItRuns(cfg: Config, w: World, s: Step)
    requires Enabled(cfg, w, s) && !s.Commit? && !s.CrashDevice? && !s.LoseStore?
    ensures var v := After(cfg, w, s);
            && |v.payments| == |w.payments| && (forall i :: w.lines(i) <= v.lines(i))
            && (forall k :: 0 <= k < |w.payments| ==> v.payments[k] == w.payments[k].(landed := v.payments[k].landed))
            && (s.Begin? ==> v.busy == Some(Busy(w.lines, w.clock)) && v.payments == w.payments)
               && (!s.Begin? && w.busy.Some? ==> v.busy == w.busy)
  {
  }

  lemma {:induction false} SinceItBegan(cfg: Config, worlds: seq<World>, steps: seq<Step>, b: nat, n: nat, m: nat)
    requires IsRun(cfg, worlds, steps) && SameOperation(steps, b, n) && b < m <= n
    ensures worlds[m].busy == Some(Busy(worlds[b].lines, worlds[b].clock))
            && |worlds[m].payments| == |worlds[b].payments|
    ensures forall i :: worlds[b].lines(i) <= worlds[m].lines(i)
    ensures forall k :: 0 <= k < |worlds[b].payments| ==>
                          worlds[m].payments[k] == worlds[b].payments[k].(landed := worlds[m].payments[k].landed)
    decreases m
  {
    hide IsRun, Enabled, After;
    if m - 1 > b {
      SinceItBegan(cfg, worlds, steps, b, n, m - 1);
    }
    RunStep(cfg, worlds, steps, m - 1);
    WhileItRuns(cfg, worlds[m - 1], steps[m - 1]);
    if m - 1 > b {
      assert !steps[m - 1].Begin? by {
        BeginsIdle(cfg, worlds[m - 1], steps[m - 1]);
      }
    }
  }

  lemma BeginsIdle(cfg: Config, w: World, s: Step)
    requires Enabled(cfg, w, s) && w.busy.Some?
    ensures !s.Begin?
  {
  }

  /**
    In every run, a reconciliation that releases a payment's slot proves that the payment had not landed
    when it began.
   */
  lemma ReleasedHadNotLanded(cfg: Config, worlds: seq<World>, steps: seq<Step>, b: nat, n: nat, k: nat)
    requires IsRun(cfg, worlds, steps) && SameOperation(steps, b, n) && ReleasedAtStep(cfg, worlds, steps, k, n)
    ensures k < |worlds[b].payments| && !worlds[b].payments[k].landed
  {
    SinceItBegan(cfg, worlds, steps, b, n, n);
    RunStep(cfg, worlds, steps, n);
    InvAt(cfg, worlds, steps, n);
    hide IsRun, After, Enabled, ReleasedBy;
    var at := SeenWhileReleasing(cfg, worlds[n], steps[n].event, steps[n].created, k);
    RunsLandOnce(cfg, worlds, steps, b);
    SeenIsNotGone(worlds[b], worlds[n], worlds[b].payments[k], at);
  }

  /** A value seen on the account at or after `w` was not gone in `w`. */
  lemma SeenIsNotGone(w: World, v: World, p: SlotPayment, at: int)
    requires w.lines(p.index) <= v.lines(p.index) && NeverRepeats(v.lines(p.index))
    requires HeldAt(v, p.index, p.value, at) && |w.lines(p.index)| - 1 <= at
    ensures !Gone(w, p)
  {
    assert forall a :: HeldAt(w, p.index, p.value, a) ==> HeldAt(v, p.index, p.value, a) && a == at;
  }

  // --- outstanding payments ------------------------------------------------------------------------

  /**
    Payments land only while younger than the send window, and the device clock is the clock: an
    operation that is told the time is told when it begins.
   */
  ghost predicate Timely(cfg: Config, w: World, s: Step) {
    match s
    case Land(k, _) => k < |w.payments| ==> w.clock - w.payments[k].at < cfg.sendWindowMs
    case Commit(e, _) => w.busy.Some? && e.OnLedger? && (e.op.Reserve? || e.op.Reconcile?)
      ==> e.op.now == w.busy.value.at
    case _ => true
  }

  ghost predicate TimelyRun(cfg: Config, worlds: seq<World>, steps: seq<Step>) {
    IsRun(cfg, worlds, steps) && forall k :: 0 <= k < |steps| ==> Timely(cfg, worlds[k], steps[k])
  }

  /** The account has moved on from a landed payment's value: before the running operation began, or recently. */
  ghost predicate MovedOn(cfg: Config, w: World, p: SlotPayment) {
    exists a :: HeldAt(w, p.index, p.value, a) && a + 1 < |w.lines(p.index)|
                && (a + 1 < Mark(w, p.index) || (w.busy.Some? && w.busy.value.at - p.at < cfg.sendWindowMs))
  }

  /** An account that left a value closed, or settled a payment against it. */
  ghost predicate LeftBecause(w: World, i: nat, a: int)
    requires 0 <= a && a + 1 < |w.lines(i)| && w.lines(i)[a].Some?
  {
    w.lines(i)[a + 1] == None
    || exists k :: 0 <= k < |w.payments| && w.payments[k].landed && Against(w.payments[k], i, w.lines(i)[a].value)
  }

  ghost predicate LandedSound(cfg: Config, w: World) {
    && (forall k :: 0 <= k < |w.payments| && w.payments[k].landed ==> MovedOn(cfg, w, w.payments[k]))
    && (forall j, k | 0 <= j < k < |w.payments| && w.payments[j].landed && w.payments[k].landed
          :: !Against(w.payments[k], w.payments[j].index, w.payments[j].value))
  }

  ghost predicate LinesExplained(w: World) {
    forall i, a :: 0 <= a && a + 1 < |w.lines(i)| && w.lines(i)[a].Some? ==> LeftBecause(w, i, a)
  }

  ghost predicate Aged(cfg: Config, w: World) {
    && (w.busy.Some? ==> w.busy.value.at <= w.clock)
    && forall k :: 0 <= k < |w.payments| && w.payments[k].released ==>
                     !w.payments[k].landed && w.clock - w.payments[k].at >= cfg.sendWindowMs
  }

  ghost predicate TimelyInv(cfg: Config, w: World) {
    Inv(cfg, w) && LandedSound(cfg, w) && LinesExplained(w) && Aged(cfg, w)
  }

  /** When payments land only while young, a release proves more: the payment has not landed at all. */
  lemma ReleasedHasNotLanded(cfg: Config, w: World, e: Event, created: nat -> Key, k: nat)
    requires TimelyInv(cfg, w) && Enabled(cfg, w, Commit(e, created)) && Timely(cfg, w, Commit(e, created))
    requires k < |w.payments| && ReleasedBy(cfg, w.device, e, w.payments[k])
    ensures !w.payments[k].landed && w.clock - w.payments[k].at >= cfg.sendWindowMs
  {
    var at := SeenWhileReleasing(cfg, w, e, created, k);
    StillThere(cfg, w, w.payments[k], at);
  }

  /** An account seen on this value since the operation began had not moved on from it before. */
  lemma StillThere(cfg: Config, w: World, p: SlotPayment, at: int)
    requires NeverRepeats(w.lines(p.index)) && HeldAt(w, p.index, p.value, at) && Mark(w, p.index) - 1 <= at
    requires w.busy.Some? && w.busy.value.at - p.at >= cfg.sendWindowMs
    ensures !MovedOn(cfg, w, p)
  {
  }

  lemma LandIsTimely(cfg: Config, w: World, k: nat, next: Key)
    requires TimelyInv(cfg, w) && Enabled(cfg, w, Land(k, next)) && Timely(cfg, w, Land(k, next))
    ensures var v := After(cfg, w, Land(k, next)); LandedSound(cfg, v) && LinesExplained(v) && Aged(cfg, v)
  {
    var v := After(cfg, w, Land(k, next));
    forall j | 0 <= j < |v.payments| && v.payments[j].landed
      ensures MovedOn(cfg, v, v.payments[j])
              && (j != k ==> !Against(w.payments[j], w.payments[k].index, w.payments[k].value))
    {
      if j == k {
        LandedMovesOn(cfg, w, k, next);
      } else {
        OthersStayMovedOn(cfg, w, k, next, j);
      }
    }
    LandExplains(cfg, w, k, next);
    hide Inv, MovedOn, LinesExplained, Holds, Unused;
  }

  lemma LandedMovesOn(cfg: Config, w: World, k: nat, next: Key)
    requires Aged(cfg, w) && Enabled(cfg, w, Land(k, next)) && Timely(cfg, w, Land(k, next))
             && forall i :: Mark(w, i) <= |w.lines(i)|
    ensures MovedOn(cfg, After(cfg, w, Land(k, next)), w.payments[k])
  {
    var v, p := After(cfg, w, Land(k, next)), w.payments[k];
    assert HeldAt(v, p.index, p.value, |w.lines(p.index)| - 1);
  }

  lemma OthersStayMovedOn(cfg: Config, w: World, k: nat, next: Key, j: nat)
    requires Enabled(cfg, w, Land(k, next)) && j < |w.payments| && j != k && MovedOn(cfg, w, w.payments[j])
    requires NeverRepeats(w.lines(w.payments[k].index))
    ensures MovedOn(cfg, After(cfg, w, Land(k, next)), w.payments[j])
    ensures !Against(w.payments[j], w.payments[k].index, w.payments[k].value)
  {
    var v, p, q := After(cfg, w, Land(k, next)), w.payments[k], w.payments[j];
    var a :| HeldAt(w, q.index, q.value, a) && a + 1 < |w.lines(q.index)|
             && (a + 1 < Mark(w, q.index) || (w.busy.Some? && w.busy.value.at - q.at < cfg.sendWindowMs));
    assert HeldAt(v, q.index, q.value, a);
    assert HeldAt(w, p.index, p.value, |w.lines(p.index)| - 1);
  }

  lemma LandExplains(cfg: Config, w: World, k: nat, next: Key)
    requires LinesExplained(w) && Enabled(cfg, w, Land(k, next))
    ensures LinesExplained(After(cfg, w, Land(k, next)))
  {
    var v, p := After(cfg, w, Land(k, next)), w.payments[k];
    forall i: nat, a | 0 <= a && a + 1 < |v.lines(i)| && v.lines(i)[a].Some?
      ensures LeftBecause(v, i, a)
    {
      if a + 1 < |w.lines(i)| {
        assert LeftBecause(w, i, a);
        if w.lines(i)[a + 1].Some? {
          var j :| 0 <= j < |w.payments| && w.payments[j].landed && Against(w.payments[j], i, w.lines(i)[a].value);
          assert v.payments[j].landed && Against(v.payments[j], i, v.lines(i)[a].value);
        }
      } else {
        assert v.payments[k].landed && Against(v.payments[k], i, v.lines(i)[a].value);
      }
    }
  }

  lemma NothingLandsKeeps(cfg: Config, w: World, v: World)
    requires NothingLands(w, v) && LandedSound(cfg, w) && LinesExplained(w) && (forall i :: Mark(w, i) <= |w.lines(i)|)
    ensures LandedSound(cfg, v) && LinesExplained(v)
  {
    assert forall j, a :: 0 <= a < |w.lines(j)| ==> v.lines(j)[a] == w.lines(j)[a];
    forall j | 0 <= j < |v.payments| && v.payments[j].landed
      ensures MovedOn(cfg, v, v.payments[j])
    {
      var q := w.payments[j];
      var a :| HeldAt(w, q.index, q.value, a) && a + 1 < |w.lines(q.index)|
               && (a + 1 < Mark(w, q.index) || (w.busy.Some? && w.busy.value.at - q.at < cfg.sendWindowMs));
      assert HeldAt(v, q.index, q.value, a);
    }
    forall i: nat, a | 0 <= a && a + 1 < |v.lines(i)| && v.lines(i)[a].Some?
      ensures LeftBecause(v, i, a)
    {
      if a + 1 < |w.lines(i)| {
        assert LeftBecause(w, i, a);
        if w.lines(i)[a + 1].Some? {
          var j :| 0 <= j < |w.payments| && w.payments[j].landed && Against(w.payments[j], i, w.lines(i)[a].value);
          assert v.payments[j].landed && Against(v.payments[j], i, v.lines(i)[a].value);
        }
      }
    }
  }

  lemma StepAges(cfg: Config, w: World, s: Step)
    requires TimelyInv(cfg, w) && Enabled(cfg, w, s) && Timely(cfg, w, s) && !s.Land?
    ensures Aged(cfg, After(cfg, w, s))
  {
    if s.Commit? {
      CommitAges(cfg, w, s.event, s.created);
    }
    hide Inv, LandedSound, LinesExplained, Apply, LinesAfter, Marked, HandedOut, MisledBy;
  }

  lemma StepKeepsTimelyInv(cfg: Config, w: World, s: Step)
    requires TimelyInv(cfg, w) && Enabled(cfg, w, s) && Timely(cfg, w, s)
    ensures TimelyInv(cfg, After(cfg, w, s))
  {
    hide LandedSound, LinesExplained, Aged, After, Enabled, Timely, NothingLands, Recorded, NoneTwice, SoundLedger,
         NeverRepeats;
    StepKeepsInv(cfg, w, s);
    if s.Land? {
      LandIsTimely(cfg, w, s.payment, s.next);
    } else {
      StepLandsNothing(cfg, w, s);
      StepAges(cfg, w, s);
      NothingLandsKeeps(cfg, w, After(cfg, w, s));
    }
  }

  lemma CommitAges(cfg: Config, w: World, e: Event, created: nat -> Key)
    requires TimelyInv(cfg, w) && Enabled(cfg, w, Commit(e, created)) && Timely(cfg, w, Commit(e, created))
    ensures Aged(cfg, After(cfg, w, Commit(e, created)))
  {
    var v := After(cfg, w, Commit(e, created));
    CommitLandsNothing(cfg, w, e, created);
    forall k | 0 <= k < |v.payments| && v.payments[k].released
      ensures !v.payments[k].landed && v.clock - v.payments[k].at >= cfg.sendWindowMs
    {
      PaymentsStay(cfg, w, Commit(e, created), k);
      if !w.payments[k].released {
        ReleasedHasNotLanded(cfg, w, e, created, k);
      }
    }
  }

  lemma {:induction false} TimelyRunsKeepInv(cfg: Config, worlds: seq<World>, steps: seq<Step>)
    requires TimelyRun(cfg, worlds, steps)
    ensures TimelyInv(cfg, worlds[|steps|])
  {
    hide Enabled, After, Timely;
    if steps == [] {
      assert TimelyInv(cfg, START);
    } else {
      var n := |steps| - 1;
      var shorter, fewer := worlds[..n + 1], steps[..n];
      assert TimelyRun(cfg, shorter, fewer);
      hide TimelyInv;
      TimelyRunsKeepInv(cfg, shorter, fewer);
      StepKeepsTimelyInv(cfg, worlds[n], steps[n]);
    }
  }

  /** The payment has not landed and is still inside its send window. */
  predicate Outstanding(cfg: Config, w: World, p: SlotPayment) {
    !p.landed && w.clock - p.at < cfg.sendWindowMs
  }

  /** The account closed while it held this value. */
  ghost predicate ClosedAt(w: World, i: nat, value: Key) {
    exists a :: HeldAt(w, i, value, a) && a + 1 < |w.lines(i)| && w.lines(i)[a + 1] == None
  }

  /**
    An outstanding payment is never made stale by its own pool, as long as no return for its slot was
    applied that was no real advance.  Unless its account was closed,
    the chain still holds its nonce value and a merchant's check passes; and no other payment against
    that value has landed or still can.
   */
  lemma OutstandingPaymentsStayGood(cfg: Config, worlds: seq<World>, steps: seq<Step>, k: nat,
                                    account: NonceAccountState)
    requires TimelyRun(cfg, worlds, steps)
    requires k < |worlds[|steps|].payments| && Outstanding(cfg, worlds[|steps|], worlds[|steps|].payments[k])
    requires worlds[|steps|].payments[k].index !in worlds[|steps|].misled
    requires AccountNow(cfg, worlds[|steps|], worlds[|steps|].payments[k].index, account)
    ensures StaysGood(cfg, worlds[|steps|], k, account)
  {
    TimelyRunsKeepInv(cfg, worlds, steps);
    hide TimelyRun, TimelyInv;
    OutstandingIsGood(cfg, worlds[|steps|], k, account);
  }

  ghost predicate StaysGood(cfg: Config, w: World, k: nat, account: NonceAccountState)
    requires k < |w.payments|
  {
    var p := w.payments[k];
    && (Holds(w, p.index) == Some(p.value) || ClosedAt(w, p.index, p.value))
    && (!ClosedAt(w, p.index, p.value) ==> Check(account, cfg.payer, p.value) == Passes(p.value))
    && forall j | 0 <= j < |w.payments| && j != k && Against(w.payments[j], p.index, p.value)
         :: !w.payments[j].landed && !Outstanding(cfg, w, w.payments[j])
  }

  lemma OutstandingIsGood(cfg: Config, w: World, k: nat, account: NonceAccountState)
    requires TimelyInv(cfg, w) && k < |w.payments| && Outstanding(cfg, w, w.payments[k])
             && w.payments[k].index !in w.misled
    requires AccountNow(cfg, w, w.payments[k].index, account)
    ensures StaysGood(cfg, w, k, account)
  {
    var p := w.payments[k];
    forall j: nat | j < |w.payments| && j != k && Against(w.payments[j], p.index, p.value)
      ensures !w.payments[j].landed && !Outstanding(cfg, w, w.payments[j])
    {
      InvMeans(cfg, w, if j < k then j else k, if j < k then k else j);
    }
    WhereItStands(cfg, w, p);
    hide Inv, LandedSound, Aged;
    var a :| HeldAt(w, p.index, p.value, a);
    if a + 1 < |w.lines(p.index)| {
      assert LeftBecause(w, p.index, a);
    }
  }

  lemma WhereItStands(cfg: Config, w: World, p: SlotPayment)
    requires Inv(cfg, w) && p in w.payments && p.index !in w.misled
    ensures exists a :: HeldAt(w, p.index, p.value, a)
  {
    var k :| 0 <= k < |w.payments| && w.payments[k] == p;
    assert Some(w.payments[k].value) in w.lines(w.payments[k].index);
    var a :| 0 <= a < |w.lines(p.index)| && w.lines(p.index)[a] == Some(p.value);
    assert HeldAt(w, p.index, p.value, a);
  }
}
