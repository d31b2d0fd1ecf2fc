/**
  Hand-outs, returns and unknown slots over every run of the pool against the chain: when a slot value
  can be signed against again, when a return can count again, and how long an unknown slot stays one.
 */
module PoolHandOuts {
  import opened Common
  import opened NonceReturn
  import opened PoolModel
  import opened PoolWorld
  import opened PoolSafety
  import opened PoolRuns

  // --- hand-outs over a run ------------------------------------------------------------------------

  /** Payments are never forgotten or altered, and only a reconciliation marks one released. */
  lemma PaymentsStay(cfg: Config, w: World, s: Step, j: nat)
    requires Enabled(cfg, w, s) && j < |w.payments|
    ensures var v := After(cfg, w, s);
            && |w.payments| <= |v.payments| <= |w.payments| + 1
            && v.payments[j] == w.payments[j].(landed := v.payments[j].landed, released := v.payments[j].released)
            && (v.payments[j].released && !w.payments[j].released ==>
                  s.Commit? && ReleasedBy(cfg, w.device, s.event, w.payments[j]))
            && (|v.payments| > |w.payments| ==> s.Commit? && s.event.OnLedger? && s.event.op.Reserve?)
  {
    hide Apply, LinesAfter;
  }

  /** The step of the run at which this payment was released. */
  ghost predicate ReleasedAtStep(cfg: Config, worlds: seq<World>, steps: seq<Step>, j: nat, n: nat)
  {
    && n < |steps| && n < |worlds| && j < |worlds[n].payments|
    && steps[n].Commit? && ReleasedBy(cfg, worlds[n].device, steps[n].event, worlds[n].payments[j])
  }

  lemma {:induction false} ReleaseHappened(cfg: Config, worlds: seq<World>, steps: seq<Step>, j: nat,
                                           m: nat) returns (n: nat)
    requires IsRun(cfg, worlds, steps) && m <= |steps| && j < |worlds[m].payments| && worlds[m].payments[j].released
    ensures n < m && ReleasedAtStep(cfg, worlds, steps, j, n)
    ensures worlds[n].payments[j].at == worlds[m].payments[j].at
            && Against(worlds[n].payments[j], worlds[m].payments[j].index, worlds[m].payments[j].value)
    ensures |worlds[n].payments| <= |worlds[m].payments|
    decreases m
  {
    hide Enabled, After, ReleasedBy;
    assert m > 0;
    assert Enabled(cfg, worlds[m - 1], steps[m - 1]) && worlds[m] == After(cfg, worlds[m - 1], steps[m - 1]);
    if j < |worlds[m - 1].payments| {
      PaymentsStay(cfg, worlds[m - 1], steps[m - 1], j);
      if worlds[m - 1].payments[j].released {
        n := ReleaseHappened(cfg, worlds, steps, j, m - 1);
      } else {
        n := m - 1;
      }
    } else {
      NewPaymentsAreNot(cfg, worlds[m - 1], steps[m - 1], j);
    }
  }

  lemma NewPaymentsAreNot(cfg: Config, w: World, s: Step, j: nat)
    requires Enabled(cfg, w, s) && |w.payments| <= j < |After(cfg, w, s).payments|
    ensures j == |w.payments| && !After(cfg, w, s).payments[j].released && s.Commit? && s.event.OnLedger?
            && s.event.op.Reserve?
  {
    hide Apply, LinesAfter;
  }

  /** The world just before payment `k` was handed out. */
  lemma {:induction false} BeforeHandOut(cfg: Config, worlds: seq<World>, steps: seq<Step>, k: nat,
                                         m: nat) returns (n: nat)
    requires IsRun(cfg, worlds, steps) && m <= |steps| && k < |worlds[m].payments|
    ensures n < m && |worlds[n].payments| == k && k < |worlds[n + 1].payments|
    ensures steps[n].Commit? && steps[n].event.OnLedger? && steps[n].event.op.Reserve?
    ensures Against(worlds[m].payments[k], worlds[n + 1].payments[k].index, worlds[n + 1].payments[k].value)
    ensures forall j :: 0 <= j < k ==>
                          && j < |worlds[m].payments|
                          && worlds[m].payments[j].at == worlds[n + 1].payments[j].at
                          && Against(worlds[m].payments[j], worlds[n + 1].payments[j].index,
                                     worlds[n + 1].payments[j].value)
    decreases m
  {
    hide Enabled, After;
    assert m > 0;
    assert Enabled(cfg, worlds[m - 1], steps[m - 1]) && worlds[m] == After(cfg, worlds[m - 1], steps[m - 1]);
    forall j: nat | j < |worlds[m - 1].payments|
      ensures j < |worlds[m].payments| && worlds[m].payments[j].at == worlds[m - 1].payments[j].at
              && Against(worlds[m].payments[j], worlds[m - 1].payments[j].index, worlds[m - 1].payments[j].value)
    {
      PaymentsStay(cfg, worlds[m - 1], steps[m - 1], j);
    }
    if k < |worlds[m - 1].payments| {
      n := BeforeHandOut(cfg, worlds, steps, k, m - 1);
    } else {
      NewPaymentsAreNot(cfg, worlds[m - 1], steps[m - 1], k);
      n := m - 1;
    }
  }

  lemma {:induction false} FewerBefore(cfg: Config, worlds: seq<World>, steps: seq<Step>, n: nat, m: nat)
    requires IsRun(cfg, worlds, steps) && n <= m <= |steps|
    ensures |worlds[n].payments| <= |worlds[m].payments|
    decreases m
  {
    if n < m {
      FewerBefore(cfg, worlds, steps, n, m - 1);
      assert Enabled(cfg, worlds[m - 1], steps[m - 1]) && worlds[m] == After(cfg, worlds[m - 1], steps[m - 1]);
      hide Enabled, After, Apply;
      AfterHasMore(cfg, worlds[m - 1], steps[m - 1]);
    }
  }

  lemma AfterHasMore(cfg: Config, w: World, s: Step)
    requires Enabled(cfg, w, s)
    ensures |w.payments| <= |After(cfg, w, s).payments|
  {
    hide Apply, LinesAfter;
  }

  // --- false returns -------------------------------------------------------------------------------

  /** The step of the run at which a return for a move the account never made re-armed slot `i`. */
  ghost predicate MisledAtStep(cfg: Config, worlds: seq<World>, steps: seq<Step>, i: nat, n: nat) {
    n < |steps| && n < |worlds| && steps[n].Commit? && FalseReturn(cfg, worlds[n], steps[n].event, i)
  }

  lemma MisledStep(cfg: Config, w: World, s: Step, i: nat)
    requires Enabled(cfg, w, s) && i in After(cfg, w, s).misled && i !in w.misled
    ensures s.Commit? && FalseReturn(cfg, w, s.event, i)
  {
    hide Apply, LinesAfter, FalseReturn;
  }

  lemma {:induction false} MisledHappened(cfg: Config, worlds: seq<World>, steps: seq<Step>, i: nat,
                                          m: nat) returns (n: nat)
    requires IsRun(cfg, worlds, steps) && m <= |steps| && i in worlds[m].misled
    ensures n < m && MisledAtStep(cfg, worlds, steps, i, n)
    decreases m
  {
    hide Enabled, After, FalseReturn;
    assert m > 0;
    RunStep(cfg, worlds, steps, m - 1);
    if i in worlds[m - 1].misled {
      n := MisledHappened(cfg, worlds, steps, i, m - 1);
    } else {
      MisledStep(cfg, worlds[m - 1], steps[m - 1], i);
      n := m - 1;
    }
  }

  /** What honest merchants sign is never false. */
  lemma HonestReturnsAreReal(cfg: Config, w: World, e: Event, i: nat)
    requires HonestReturns(cfg, w, e)
    ensures !FalseReturn(cfg, w, e, i)
  {
    if e.OnLedger? && e.op.NonceReturned? && e.op.payload.nonceIndex == i && Loaded(w.device).Some?
       && ApplyReturn(cfg, Loaded(w.device).value, e.op.payload, e.op.signed).Ok?
    {
      var record := RecordAt(Loaded(w.device).value.slots, i).value;
      ReturnMeansSigned(e.op.signed, e.op.payload, cfg.payer, record.merchant, record.value, RealAdvances(cfg, w));
    }
  }

  /** Merchants who sign only real advances mislead no slot. */
  lemma HonestRunsMisleadNobody(cfg: Config, worlds: seq<World>, steps: seq<Step>, m: nat)
    requires HonestRun(cfg, worlds, steps) && m <= |steps|
    ensures worlds[m].misled == {}
  {
    hide Enabled, After, FalseReturn, HonestReturns;
    forall i: nat
      ensures i !in worlds[m].misled
    {
      if i in worlds[m].misled {
        var n := MisledHappened(cfg, worlds, steps, i, m);
        HonestReturnsAreReal(cfg, worlds[n], steps[n].event, i);
        assert false;
      }
    }
  }

  // --- the same value, the same return -------------------------------------------------------------

  lemma InvMeans(cfg: Config, w: World, j: nat, k: nat)
    requires Inv(cfg, w) && j < k < |w.payments| && Against(w.payments[k], w.payments[j].index, w.payments[j].value)
    ensures w.payments[j].released || w.payments[j].index in w.misled
  {
  }

  /**
    In every run — crashes and reloads, late landings, a lost store, recovery, closing and creating
    included — a slot value is handed out again only if, before that, a reconciliation at least one
    send window after the first hand-out released the slot, or a merchant's return for the slot was
    applied that was no real advance.
   */
  lemma NoValueHandedOutTwice(cfg: Config, worlds: seq<World>, steps: seq<Step>, j: nat, k: nat) returns (n: nat)
    requires IsRun(cfg, worlds, steps) && j < k < |worlds[|steps|].payments|
    requires Against(worlds[|steps|].payments[k], worlds[|steps|].payments[j].index, worlds[|steps|].payments[j].value)
    ensures n < |steps| && |worlds[n].payments| <= k
    ensures || MisledAtStep(cfg, worlds, steps, worlds[|steps|].payments[j].index, n)
            || (&& ReleasedAtStep(cfg, worlds, steps, j, n)
                && steps[n].event.op.now - worlds[|steps|].payments[j].at >= cfg.sendWindowMs)
  {
    hide IsRun, Enabled, After, Inv, FalseReturn;
    var m := BeforeHandOut(cfg, worlds, steps, k, |steps|);
    RunStep(cfg, worlds, steps, m);
    InvAt(cfg, worlds, steps, m + 1);
    InvMeans(cfg, worlds[m + 1], j, k);
    if worlds[m + 1].payments[j].released {
      n := ReleaseHappened(cfg, worlds, steps, j, m + 1);
    } else {
      n := MisledHappened(cfg, worlds, steps, worlds[m + 1].payments[j].index, m + 1);
    }
    FewerBefore(cfg, worlds, steps, n, m);
  }

  lemma AcceptancesStay(cfg: Config, w: World, s: Step)
    requires Enabled(cfg, w, s)
    ensures var v := After(cfg, w, s);
            w.accepted <= v.accepted && |v.accepted| <= |w.accepted| + 1
  {
    hide Apply, LinesAfter, Marked, HandedOut, MisledBy;
  }

  /** The world just after return `k` was accepted. */
  lemma {:induction false} AfterAcceptance(cfg: Config, worlds: seq<World>, steps: seq<Step>, k: nat,
                                           m: nat) returns (n: nat)
    requires IsRun(cfg, worlds, steps) && m <= |steps| && k < |worlds[m].accepted|
    ensures 0 < n <= m && |worlds[n - 1].accepted| == k && |worlds[n].accepted| == k + 1
            && worlds[n].accepted <= worlds[m].accepted
    decreases m
  {
    hide Enabled, After;
    assert m > 0;
    RunStep(cfg, worlds, steps, m - 1);
    AcceptancesStay(cfg, worlds[m - 1], steps[m - 1]);
    if k < |worlds[m - 1].accepted| {
      n := AfterAcceptance(cfg, worlds, steps, k, m - 1);
    } else {
      n := m;
    }
  }

  lemma {:induction false} FewerAccepted(cfg: Config, worlds: seq<World>, steps: seq<Step>, n: nat, m: nat)
    requires IsRun(cfg, worlds, steps) && n <= m <= |steps|
    ensures |worlds[n].accepted| <= |worlds[m].accepted|
    decreases m
  {
    hide Enabled, After;
    if n < m {
      FewerAccepted(cfg, worlds, steps, n, m - 1);
      RunStep(cfg, worlds, steps, m - 1);
      AcceptancesStay(cfg, worlds[m - 1], steps[m - 1]);
    }
  }

  /**
    A return — one slot, one new value — counts again only after one for the slot was applied that was no
    real advance.
   */
  lemma RepeatedReturnsAreMisled(cfg: Config, worlds: seq<World>, steps: seq<Step>, j: nat, k: nat) returns (n: nat)
    requires IsRun(cfg, worlds, steps) && j < k < |worlds[|steps|].accepted|
    requires worlds[|steps|].accepted[j] == worlds[|steps|].accepted[k]
    ensures MisledAtStep(cfg, worlds, steps, worlds[|steps|].accepted[j].0, n) && |worlds[n].accepted| <= k
  {
    hide IsRun, Enabled, After, FalseReturn;
    var m := AfterAcceptance(cfg, worlds, steps, k, |steps|);
    RunStep(cfg, worlds, steps, m - 1);
    InvAt(cfg, worlds, steps, m);
    n := MisledHappened(cfg, worlds, steps, worlds[m].accepted[j].0, m);
    FewerAccepted(cfg, worlds, steps, n, m - 1);
  }

  /** When merchants sign only real advances, no return is accepted twice in any run. */
  lemma ReturnsCountOnce(cfg: Config, worlds: seq<World>, steps: seq<Step>, j: nat, k: nat)
    requires HonestRun(cfg, worlds, steps) && j < k < |worlds[|steps|].accepted|
    ensures worlds[|steps|].accepted[j] != worlds[|steps|].accepted[k]
  {
    HonestRunsMisleadNobody(cfg, worlds, steps, |steps|);
    InvAt(cfg, worlds, steps, |steps|);
  }

  // --- unknown slots -------------------------------------------------------------------------------

  /** A ledger that holds slot `i`, if at all, as unknown. */
  predicate OnlyUnknownIn(state: Option<PoolState>, i: nat) {
    state.Some? ==> forall s :: s in state.value.slots && s.index == i ==> s.state.Unknown?
  }

  predicate OnlyUnknown(d: Device, i: nat) {
    OnlyUnknownIn(d.current, i) && OnlyUnknownIn(d.stored, i)
  }

  /** A `create` that gets as far as writing a ledger with this slot. */
  predicate Makes(cfg: Config, d: Device, e: Event, i: nat) {
    e.Create? && Created(cfg, d, e.size, e.key, e.setup, e.epoch).Ok? && i < e.size
  }

  lemma UnknownAfter(cfg: Config, state: PoolState, op: Operation, i: nat)
    requires Operate(cfg, state, op).Ok? && OnlyUnknownIn(Some(state), i)
    ensures OnlyUnknownIn(Some(Operate(cfg, state, op).value.0), i)
  {
    hide Pick, With, Refund;
    var next := Operate(cfg, state, op).value.0.slots;
    forall t | t in next && t.index == i
      ensures t.state.Unknown?
    {
      var k :| 0 <= k < |next| && next[k] == t;
      OperateKeepsIndices(cfg, state, op);
      assert state.slots[k] in state.slots && state.slots[k].index == i;
    }
  }

  lemma UnknownInNext(cfg: Config, d: Device, e: Event, i: nat)
    requires OnlyUnknown(d, i) && !Makes(cfg, d, e, i)
    ensures OnlyUnknownIn(Next(cfg, d, e), i)
  {
    if Next(cfg, d, e).Some? {
      if e.Recover? {
        ProbeAddresses(cfg.payer, e.seen, 0, e.maxProbe);
      } else if e.OnLedger? {
        UnknownAfter(cfg, Loaded(d).value, e.op, i);
      }
    }
  }

  /** Whatever a device does to a slot that is unknown everywhere, short of creating it anew. */
  lemma UnknownStaysUnknown(cfg: Config, d: Device, e: Event, i: nat)
    requires OnlyUnknown(d, i) && !Makes(cfg, d, e, i)
    ensures OnlyUnknown(Apply(cfg, d, e).0, i)
    ensures forall p :: p in HandedOut(cfg, d, e) ==> p.index != i
  {
    LedgersAfter(cfg, d, e);
    UnknownInNext(cfg, d, e, i);
    if HandsOut(cfg, d, e) && e.op.Reserve? {
      var p, s, next := AnsweredReserve(cfg, d, e);
    }
    hide Apply, Next;
  }

  lemma UnknownStep(cfg: Config, w: World, s: Step, i: nat)
    requires Enabled(cfg, w, s) && OnlyUnknown(w.device, i) && !(s.Commit? && Makes(cfg, w.device, s.event, i))
    ensures var v := After(cfg, w, s);
            OnlyUnknown(v.device, i) && forall j :: |w.payments| <= j < |v.payments| ==> v.payments[j].index != i
  {
    if s.Commit? {
      UnknownStaysUnknown(cfg, w.device, s.event, i);
      var handed := HandedOut(cfg, w.device, s.event);
      assert forall j :: |w.payments| <= j < |After(cfg, w, s).payments| ==>
                           After(cfg, w, s).payments[j] == handed[j - |w.payments|];
    }
    hide Apply, LinesAfter, Makes;
  }

  /**
    From any moment of any run at which neither ledger holds a slot but as unknown, nothing is handed
    out from it until a create writes a ledger with it: whatever lands, crashes, is lost or recovered.
   */
  lemma {:induction false} UnknownUntilCreated(cfg: Config, worlds: seq<World>, steps: seq<Step>, m: nat, n: nat,
                                               i: nat)
    requires IsRun(cfg, worlds, steps) && m <= n <= |steps| && OnlyUnknown(worlds[m].device, i)
    requires forall k | m <= k < n :: !(steps[k].Commit? && Makes(cfg, worlds[k].device, steps[k].event, i))
    ensures OnlyUnknown(worlds[n].device, i)
    ensures |worlds[m].payments| <= |worlds[n].payments|
    ensures forall j :: |worlds[m].payments| <= j < |worlds[n].payments| ==> worlds[n].payments[j].index != i
    decreases n
  {
    hide Enabled, After, OnlyUnknown, Makes;
    if m < n {
      UnknownUntilCreated(cfg, worlds, steps, m, n - 1, i);
      RunStep(cfg, worlds, steps, n - 1);
      UnknownStep(cfg, worlds[n - 1], steps[n - 1], i);
      AfterHasMore(cfg, worlds[n - 1], steps[n - 1]);
      forall j | |worlds[m].payments| <= j < |worlds[n - 1].payments|
        ensures worlds[n].payments[j].index != i
      {
        PaymentsStay(cfg, worlds[n - 1], steps[n - 1], j);
      }
    }
  }

  function WriteBy(e: Event): Write {
    match e
    case OnLedger(op) => WriteOf(op)
    case Recover(_, _, _, write) => write
    case Create(_, _, _, _, write) => write
    case Crash => Resolved
  }

  /**
    When an operation makes a slot unknown, it is unknown for both ledgers exactly when its write was
    stored or the stored ledger did not hold the slot as anything else before.
   */
  lemma UnknownInBothExactlyWhen(cfg: Config, d: Device, e: Event, i: nat)
    requires Next(cfg, d, e).Some? && OnlyUnknownIn(Next(cfg, d, e), i) && !(e.OnLedger? && e.op.Load?)
    ensures OnlyUnknown(Apply(cfg, d, e).0, i) <==> !WriteBy(e).RejectedBeforeStoring? || OnlyUnknownIn(d.stored, i)
  {
    hide Operate, RecoveredState, Created, OnlyUnknownIn;
  }
}
