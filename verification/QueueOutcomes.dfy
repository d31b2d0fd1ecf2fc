/** What every run of the queue keeps: agreement with the chain, final entries, dedupe, the counter, acceptance. */
module QueueOutcomes {
  import opened Common
  import opened Sign
  import opened NonceCheck
  import opened Submit
  import opened QueueModel
  import opened QueueLaws
  import opened QueueRuns
  import opened QueueExposure

  // --- operations nothing disturbs -----------------------------------------------------------------

  /** The store catches up, one step to a write. */
  ghost function CaughtUp(limits: Limits, w: World): (v: World)
    ensures v == w.(q := Flush(w.q), acceptances := v.acceptances)
    decreases |w.q.pending|
  {
    if w.q.pending == [] then w
    else
      PutAllCons(w.q.stored, w.q.pending);
      CaughtUp(limits, After(limits, w, Store(0)))
  }

  lemma {:induction false} CatchingUpKeepsInv(limits: Limits, w: World)
    requires Inv(w)
    ensures Inv(CaughtUp(limits, w))
    decreases |w.q.pending|
  {
    hide Inv;
    if w.q.pending != [] {
      StepKeepsInv(limits, w, Store(0));
      CatchingUpKeepsInv(limits, After(limits, w, Store(0)));
    }
  }

  /** An acceptance whose write is awaited is the modelled one, and by then it is on the books. */
  lemma AcceptIsItsSteps(limits: Limits, w: World, s: Step)
    requires Inv(w) && s.AcceptPayment? && Enabled(w, s)
    ensures var v := After(limits, w, s);
            var r := Accept(limits, w.q, s.payment, s.tier, s.payment.input.amount, s.precheck, s.now);
            if r.1.Ok? then CaughtUp(limits, v).q == r.0 && IdOf(s.payment) in CaughtUp(limits, v).acceptances
            else v == w
  {
    var v := After(limits, w, s);
    StepKeepsInv(limits, w, s);
    CatchingUpKeepsInv(limits, v);
    var amount := s.payment.input.amount;
    if Refusal(limits, w.q, s.payment, s.tier, amount, s.precheck).None? {
      LookupPut(w.q.payments, Accepted(s.payment, s.tier, amount, s.now), IdOf(s.payment));
      AllIsStored(CaughtUp(limits, v), IdOf(s.payment));
    }
    hide Inv, Exposure, Put, PutAll, Lookup;
  }

  lemma AllIsStored(w: World, id: PaymentId)
    requires Inv(w) && w.q.pending == [] && Lookup(w.q.payments, id).Some?
    ensures id in w.acceptances
  {
    StoredIsHeld(w.q, id);
  }

  ghost predicate TruthfulSends(w: World, sends: PaymentId -> (seq<Byte>, Network)) {
    forall id :: Truthful(sends(id).1, w.chain(id))
  }

  /** The steps of a drain, one after the other with nothing in between but the store catching up. */
  ghost function Drained(limits: Limits, w: World, key: Key, sends: PaymentId -> (seq<Byte>, Network)): World
    requires w.drain.Choosing? && TruthfulSends(w, sends)
    decreases |w.drain.rest|
  {
    var chosen := After(limits, w, Choose);
    match chosen.drain
    case Idle => chosen
    case Choosing(_) => Drained(limits, chosen, key, sends)
    case Saving(queued, _) =>
      var sent := After(limits, CaughtUp(limits, chosen), Send);
      var returned := After(limits, sent, Return(key, sends(queued.id).0, sends(queued.id).1));
      if returned.drain.Idle? then returned
      else
        var counted := After(limits, CaughtUp(limits, returned), CountIt);
        Drained(limits, After(limits, counted, StoreCounter), key, sends)
  }

  /** One attempt of an undisturbed drain, and what is left to do after it. */
  lemma OneAttempt(limits: Limits, w: World, key: Key, sends: PaymentId -> (seq<Byte>, Network)) returns (next: World)
    requires w.drain.Choosing? && TruthfulSends(w, sends) && w.drain.rest != [] && Eligible(w.drain.rest[0])
    ensures var queued, begun := w.drain.rest[0], BeginAttempt(w.q, w.drain.rest[0]);
            match Submit.Submit(queued.payment, key, sends(queued.id).0, sends(queued.id).1)
            case Err(_) => Drained(limits, w, key, sends).q == begun && Drained(limits, w, key, sends).drain.Idle?
            case Ok(outcome) =>
              && next.q == CountOutcome(EndAttempt(begun, queued, outcome), outcome) && next.chain == w.chain
              && next.drain == Choosing(w.drain.rest[1..]) && next.history == w.history + [outcome]
              && Drained(limits, w, key, sends) == Drained(limits, next, key, sends)
  {
    hide Submit.Submit, Issue, PutAll, Truthful;
    var queued, send := w.drain.rest[0], sends(w.drain.rest[0].id);
    var chosen := After(limits, w, Choose);
    var returned := After(limits, After(limits, CaughtUp(limits, chosen), Send), Return(key, send.0, send.1));
    next := w;
    if Submit.Submit(queued.payment, key, send.0, send.1).Ok? {
      next := After(limits, After(limits, CaughtUp(limits, returned), CountIt), StoreCounter);
    }
  }

  /** An entry that is not eligible is passed over, and with none left the drain is done. */
  lemma NoAttempt(limits: Limits, w: World, key: Key, sends: PaymentId -> (seq<Byte>, Network))
    requires w.drain.Choosing? && TruthfulSends(w, sends) && (w.drain.rest == [] || !Eligible(w.drain.rest[0]))
    ensures Drained(limits, w, key, sends) ==
            if w.drain.rest == [] then w.(drain := Idle)
            else Drained(limits, w.(drain := Choosing(w.drain.rest[1..])), key, sends)
  {
    hide Submit.Submit, CaughtUp, Truthful;
  }

  /** A drain nothing disturbs is exactly the loop: same queue, and the outcomes it returns are the new history. */
  lemma {:induction false} DrainIsItsSteps(limits: Limits, w: World, key: Key, sends: PaymentId -> (seq<Byte>, Network))
    requires w.drain.Choosing? && TruthfulSends(w, sends)
    ensures var v, loop := Drained(limits, w, key, sends), DrainFrom(w.q, w.drain.rest, key, sends);
            v.q == loop.0 && v.drain.Idle? && (loop.1.Ok? ==> v.history == w.history + loop.1.value)
    decreases |w.drain.rest|
  {
    hide Submit.Submit, BeginAttempt, EndAttempt, CountOutcome, Truthful, Drained, Eligible;
    var rest := w.drain.rest;
    if rest == [] || !Eligible(rest[0]) {
      NoAttempt(limits, w, key, sends);
      if rest == [] {
        assert w.history + [] == w.history;
      } else {
        DrainIsItsSteps(limits, w.(drain := Choosing(rest[1..])), key, sends);
      }
    } else {
      var next := OneAttempt(limits, w, key, sends);
      var outcome := Submit.Submit(rest[0].payment, key, sends(rest[0].id).0, sends(rest[0].id).1);
      if outcome.Ok? {
        DrainIsItsSteps(limits, next, key, sends);
        var after := DrainFrom(next.q, rest[1..], key, sends).1;
        if after.Ok? {
          assert w.history + ([outcome.value] + after.value) == (w.history + [outcome.value]) + after.value;
        }
      }
    }
  }

  // --- agreement with the chain --------------------------------------------------------------------

  function SettledAmount(e: QueuedPayment): int {
    if e.state == Settled then e.amount else 0
  }

  /** What a payment's transaction delivered. */
  function Delivered(w: World): QueuedPayment -> int {
    (e: QueuedPayment) => if w.chain(e.id) == LandedOk then e.payment.input.amount else 0
  }

  /** What landed without the attempt that sent it having reported. */
  function Unreported(w: World): QueuedPayment -> int {
    (e: QueuedPayment) => if w.chain(e.id) == LandedOk && InFlight(w, e.id) then e.amount else 0
  }

  lemma {:induction false} TotalsAdd(payments: seq<QueuedPayment>, whole: QueuedPayment -> int,
                                     a: QueuedPayment -> int, b: QueuedPayment -> int)
    requires forall e :: e in payments ==> whole(e) == a(e) + b(e)
    ensures Total(payments, whole) == Total(payments, a) + Total(payments, b)
  {
    if payments != [] {
      TotalsAdd(payments[1..], whole, a, b);
    }
  }

  lemma {:induction false} NothingUnreported(w: World, payments: seq<QueuedPayment>)
    requires forall e :: e in payments && w.chain(e.id) == LandedOk && InFlight(w, e.id) ==> e.amount == 0
    requires forall e :: e in payments ==> e.amount >= 0
    ensures Total(payments, Unreported(w)) == 0
  {
    if payments != [] {
      NothingUnreported(w, payments[1..]);
    }
  }

  lemma {:induction false} UnreportedIsNotNegative(w: World, payments: seq<QueuedPayment>)
    requires forall e :: e in payments ==> e.amount >= 0
    ensures Total(payments, Unreported(w)) >= 0
    ensures (exists e :: e in payments && w.chain(e.id) == LandedOk && InFlight(w, e.id) && e.amount > 0)
            ==> Total(payments, Unreported(w)) > 0
  {
    if payments != [] {
      UnreportedIsNotNegative(w, payments[1..]);
      assert payments == [payments[0]] + payments[1..];
    }
  }

  lemma SettledExactly(w: World, e: QueuedPayment)
    requires Inv(w) && e in w.q.payments
    ensures e.state == Settled <==> w.chain(e.id) == LandedOk && !InFlight(w, e.id)
    ensures e.amount == e.payment.input.amount >= 0
  {
    LookupFinds(w.q.payments, e);
    HeldIsOk(w, e);
    hide Tidy, EntriesOk, RestOk, Books, CounterOk;
  }

  /**
    In every run the queue and the chain agree: a payment is settled exactly when its transaction landed
    and succeeded and no attempt on it is still to report; what was delivered is what is settled plus
    what landed unreported; so the settled total never exceeds the delivered one, and equals it unless
    an attempt that never reported delivered something.
   */
  lemma SettledIsDelivered(limits: Limits, worlds: seq<World>, steps: seq<Step>, k: nat)
    requires IsRun(limits, worlds, steps) && k <= |steps|
    ensures var w := worlds[k]; var payments := w.q.payments;
            && (forall e :: e in payments ==> (e.state == Settled <==> w.chain(e.id) == LandedOk && !InFlight(w, e.id)))
            && Total(payments, Delivered(w)) == Total(payments, SettledAmount) + Total(payments, Unreported(w))
            && Total(payments, SettledAmount) <= Total(payments, Delivered(w))
            && (Total(payments, SettledAmount) == Total(payments, Delivered(w)) <==>
                forall e :: e in payments && w.chain(e.id) == LandedOk && InFlight(w, e.id) ==> e.amount == 0)
  {
    RunsKeepInv(limits, worlds, steps, k);
    var w := worlds[k];
    hide IsRun, Inv, InFlight;
    forall e | e in w.q.payments
      ensures (e.state == Settled <==> w.chain(e.id) == LandedOk && !InFlight(w, e.id))
              && e.amount == e.payment.input.amount >= 0
    {
      SettledExactly(w, e);
    }
    TotalsAdd(w.q.payments, Delivered(w), SettledAmount, Unreported(w));
    UnreportedIsNotNegative(w, w.q.payments);
    if forall e :: e in w.q.payments && w.chain(e.id) == LandedOk && InFlight(w, e.id) ==> e.amount == 0 {
      NothingUnreported(w, w.q.payments);
    }
  }

  // --- final entries -------------------------------------------------------------------------------

  lemma SavedElsewhere(q: QueueState, e: QueuedPayment, x: QueuedPayment)
    requires Tidy(q) && Supersedes(q, x) && e in q.payments && Final(e)
    ensures e in Issue(q, x).payments
  {
    LookupFinds(q.payments, e);
    PutEntries(q.payments, x);
    hide Known, FinalIsLast, PutAll, Put;
  }

  lemma FinalSurvivesAccept(limits: Limits, w: World, s: Step, e: QueuedPayment)
    requires Inv(w) && s.AcceptPayment? && Enabled(w, s) && e in w.q.payments && Final(e)
    ensures e in After(limits, w, s).q.payments
  {
    hide Tidy, EntriesOk, AttemptsOk, RestOk, AttemptOk, Books, Exposure, Issue, Final, Lookup;
    if Refusal(limits, w.q, s.payment, s.tier, s.payment.input.amount, s.precheck).None? {
      SavedElsewhere(w.q, e, Accepted(s.payment, s.tier, s.payment.input.amount, s.now));
    }
  }

  lemma FinalSurvivesChoose(limits: Limits, w: World, e: QueuedPayment)
    requires Inv(w) && w.drain.Choosing? && e in w.q.payments && Final(e)
    ensures e in After(limits, w, Choose).q.payments
  {
    hide Tidy, EntriesOk, AttemptsOk, AttemptOk, Books, Issue, Lookup;
    if w.drain.rest != [] && Eligible(w.drain.rest[0]) {
      assert w.drain.rest[0] in w.drain.rest;
      SavedElsewhere(w.q, e, Begun(w.drain.rest[0]));
    }
  }

  lemma FinalSurvivesReturn(limits: Limits, w: World, s: Step, e: QueuedPayment)
    requires Inv(w) && s.Return? && Enabled(w, s) && e in w.q.payments && Final(e)
    ensures e in After(limits, w, s).q.payments
  {
    hide Tidy, EntriesOk, AttemptsOk, RestOk, Books, Submit.Submit, Truthful, Issue, Lookup;
    var queued := w.drain.queued;
    var r := Submit.Submit(queued.payment, s.key, s.signature, s.net);
    if r.Ok? {
      SavedElsewhere(w.q, e, Ended(queued, r.value));
    }
  }

  lemma FinalSurvivesRestart(limits: Limits, w: World, s: Step, e: QueuedPayment)
    requires Inv(w) && s.Restart? && Enabled(w, s) && e in w.q.payments && Final(e)
    ensures e in After(limits, w, s).q.payments <==> e !in w.q.pending
  {
    LookupFinds(w.q.payments, e);
    PendingExactly(w.q, e);
    LoadRestores(w.q.stored, w.q.storedMeta, s.keys);
    hide Load, Inv;
  }

  lemma FinalSurvivesExpiry(limits: Limits, w: World, s: Step, e: QueuedPayment)
    requires Inv(w) && s.ExpireAt? && Enabled(w, s) && e in w.q.payments && Final(e)
    ensures e in After(limits, w, s).q.payments
  {
    hide Expire, Inv, AfterExpiry, Tidy;
    TidyOf(w);
    ExpireVoidsExactlyTheOverdue(limits, w.q, s.now);
    FinalOutlivesExpiry(limits, e, s.now);
  }

  lemma FinalOutlivesExpiry(limits: Limits, e: QueuedPayment, now: int)
    requires Final(e)
    ensures AfterExpiry(limits, e, now) == e
  {
  }

  /**
    A settled or voided entry is changed by no step but one: a crash that comes before the store has it.
    In particular an entry voided by `expire` survives a restart if and only if its write was stored.
   */
  lemma FinalSurvivesExactlyWhen(limits: Limits, w: World, s: Step, e: QueuedPayment)
    requires Inv(w) && Enabled(w, s) && e in w.q.payments && Final(e)
    ensures e in After(limits, w, s).q.payments <==> !(s.Restart? && e in w.q.pending)
  {
    match s
    case AcceptPayment(_, _, _, _) => FinalSurvivesAccept(limits, w, s, e);
    case Choose => FinalSurvivesChoose(limits, w, e);
    case Return(_, _, _) => FinalSurvivesReturn(limits, w, s, e);
    case ExpireAt(_) => FinalSurvivesExpiry(limits, w, s, e);
    case Restart(_) => FinalSurvivesRestart(limits, w, s, e);
    case _ =>
  }

  lemma StoredStays(limits: Limits, w: World, s: Step, e: QueuedPayment)
    requires Inv(w) && Enabled(w, s) && e in w.q.stored && Final(e)
    ensures e in After(limits, w, s).q.stored
  {
    if s.Store? {
      PutEntries(w.q.stored, w.q.pending[s.k]);
    } else if s.ExpireAt? {
      ExpireVoidsExactlyTheOverdue(limits, w.q, s.now);
    }
    hide Submit.Submit, Put, Known, EntriesOk, AttemptsOk, RestOk, AttemptOk, Books, Expire, Ordered, Hydrated,
         Exposure;
  }

  lemma StoredIsInMemory(w: World, e: QueuedPayment)
    requires Inv(w) && e in w.q.stored && Final(e)
    ensures e in w.q.payments
  {
    assert IsKnown(w.q, e);
  }

  /** Once the store has an entry as settled or voided, store and memory have it so for good. */
  lemma {:induction false} FinalForGood(limits: Limits, worlds: seq<World>, steps: seq<Step>, j: nat, k: nat,
                                        e: QueuedPayment)
    requires IsRun(limits, worlds, steps) && j <= k <= |steps| && e in worlds[j].q.stored && Final(e)
    ensures e in worlds[k].q.stored && e in worlds[k].q.payments
    decreases k - j
  {
    hide Inv, Enabled, After, Final;
    if j < k {
      FinalForGood(limits, worlds, steps, j, k - 1, e);
      RunStep(limits, worlds, steps, k - 1);
      RunsKeepInv(limits, worlds, steps, k - 1);
      StoredStays(limits, worlds[k - 1], steps[k - 1], e);
    }
    RunsKeepInv(limits, worlds, steps, k);
    StoredIsInMemory(worlds[k], e);
  }

  // --- dedupe --------------------------------------------------------------------------------------

  /** Its acceptance is issued to the store. */
  predicate BeingSaved(q: QueueState, id: PaymentId) {
    exists k :: 0 <= k < |q.pending| && q.pending[k].id == id
  }

  lemma HeldExactly(w: World, id: PaymentId)
    requires Inv(w)
    ensures Lookup(w.q.payments, id).Some? <==> id in w.acceptances || BeingSaved(w.q, id)
  {
    hide EntriesOk, AttemptsOk, RestOk, AttemptOk, FinalIsLast, PutAll;
    if Lookup(w.q.payments, id).Some? {
      HeldIsVersion(w.q, id);
    }
    StoredIsKnown(w.q, id);
    if BeingSaved(w.q, id) {
      var k :| 0 <= k < |w.q.pending| && w.q.pending[k].id == id;
      assert IsKnown(w.q, w.q.pending[k]);
    }
  }

  /**
    In every run each dedupe key is accepted at most once, and a payment is refused as a duplicate, at any
    tier, amount and pre-check, exactly when its key was accepted or has an acceptance on its way to the
    store; so one that was ever accepted is refused whatever became of it.
   */
  lemma AcceptedAtMostOnce(limits: Limits, worlds: seq<World>, steps: seq<Step>, k: nat, replay: VerifiedPayment)
    requires IsRun(limits, worlds, steps) && k <= |steps|
    ensures NoDuplicates(worlds[k].acceptances)
    ensures IdOf(replay) in worlds[k].acceptances || BeingSaved(worlds[k].q, IdOf(replay)) <==>
              forall tier, amount, precheck
                :: Refusal(limits, worlds[k].q, replay, tier, amount, precheck) == Some(WIRE_DUPLICATE_AUTH)
  {
    RunsKeepInv(limits, worlds, steps, k);
    HeldExactly(worlds[k], IdOf(replay));
    hide IsRun, Tidy, EntriesOk, AttemptsOk, RestOk, AttemptOk, Exposure, Lookup, BeingSaved;
    if Lookup(worlds[k].q.payments, IdOf(replay)).None? {
      assert Refusal(limits, worlds[k].q, replay, T0, 0, None) != Some(WIRE_DUPLICATE_AUTH);
    }
  }

  lemma AcceptancesStep(limits: Limits, w: World, s: Step, id: PaymentId)
    requires Enabled(w, s) && id in w.acceptances
    ensures id in After(limits, w, s).acceptances
  {
    hide Submit.Submit, Expire, Ordered, Hydrated, Issue, Exposure;
  }

  /** And it stays so: an accepted key is refused at every later step. */
  lemma {:induction false} AcceptedForGood(limits: Limits, worlds: seq<World>, steps: seq<Step>, j: nat, k: nat,
                                           id: PaymentId)
    requires IsRun(limits, worlds, steps) && j <= k <= |steps| && id in worlds[j].acceptances
    ensures id in worlds[k].acceptances && Lookup(worlds[k].q.payments, id).Some?
    decreases k - j
  {
    hide Inv, Enabled, After;
    if j < k {
      AcceptedForGood(limits, worlds, steps, j, k - 1, id);
      RunStep(limits, worlds, steps, k - 1);
      AcceptancesStep(limits, worlds[k - 1], steps[k - 1], id);
    }
    RunsKeepInv(limits, worlds, steps, k);
    HeldExactly(worlds[k], id);
  }

  // --- the counter ---------------------------------------------------------------------------------

  /** The outcomes after the last settlement. */
  function SinceSettlement(history: seq<SubmitOutcome>): seq<SubmitOutcome> {
    if history == [] || history[|history| - 1].SettledAs? then []
    else SinceSettlement(history[..|history| - 1]) + [history[|history| - 1]]
  }

  function CountingFailures(outcomes: seq<SubmitOutcome>): nat {
    if outcomes == [] then 0
    else
      var last := outcomes[|outcomes| - 1];
      CountingFailures(outcomes[..|outcomes| - 1]) + if last.FailedAs? && CountsAsFailedSend(last.code) then 1 else 0
  }

  function Streak(history: seq<SubmitOutcome>): nat {
    CountingFailures(SinceSettlement(history))
  }

  lemma SinceGrows(history: seq<SubmitOutcome>, outcome: SubmitOutcome)
    ensures SinceSettlement(history + [outcome]) == if outcome.SettledAs? then []
            else SinceSettlement(history) + [outcome]
  {
    assert (history + [outcome])[..|history|] == history;
  }

  lemma FailuresGrow(outcomes: seq<SubmitOutcome>, outcome: SubmitOutcome)
    ensures CountingFailures(outcomes + [outcome]) ==
            CountingFailures(outcomes) + if outcome.FailedAs? && CountsAsFailedSend(outcome.code) then 1 else 0
  {
    assert (outcomes + [outcome])[..|outcomes|] == outcomes;
  }

  lemma StreakGrows(history: seq<SubmitOutcome>, outcome: SubmitOutcome)
    ensures Streak(history + [outcome]) == Count(Streak(history), outcome)
  {
    SinceGrows(history, outcome);
    FailuresGrow(SinceSettlement(history), outcome);
    assert CountingFailures([]) == 0;
    hide SinceSettlement, CountingFailures;
  }

  /** The outcome that is saved, or being saved, and not yet counted in memory. */
  predicate Uncounted(w: World) {
    w.drain.Ending? && w.history != []
  }

  /** The outcome that is not yet counted in the store. */
  predicate Unrecorded(w: World) {
    (w.drain.Ending? || w.drain.Recording?) && w.history != []
  }

  function Without(history: seq<SubmitOutcome>, last: bool): seq<SubmitOutcome>
    requires last ==> history != []
  {
    if last then history[..|history| - 1] else history
  }

  /** The counter is the number of counting failures since the last settlement, as far as each side has got. */
  predicate Exact(w: World) {
    && w.q.consecutiveFailedSends == Streak(Without(w.history, Uncounted(w)))
    && MetaCounter(w.q.storedMeta) == Streak(Without(w.history, Unrecorded(w)))
  }

  predicate BeingCounted(w: World) {
    w.drain.Ending? || w.drain.Recording? ==> w.history != [] && w.history[|w.history| - 1] == w.drain.outcome
  }

  /** The crash falls between an outcome and the store having it counted, and counting would have moved the counter. */
  predicate LosesACount(w: World, s: Step) {
    && s.Restart? && (w.drain.Ending? || w.drain.Recording?)
    && Count(MetaCounter(w.q.storedMeta), w.drain.outcome) != MetaCounter(w.q.storedMeta)
  }

  lemma ExpiryKeepsCounter(limits: Limits, w: World, now: int)
    requires Inv(w)
    ensures var after := Expire(limits, w.q, now).0;
            after.consecutiveFailedSends == w.q.consecutiveFailedSends && after.storedMeta == w.q.storedMeta
  {
    hide Inv, Expire, AfterExpiry;
    TidyOf(w);
    ExpireVoidsExactlyTheOverdue(limits, w.q, now);
  }

  lemma TidyOf(w: World)
    requires Inv(w)
    ensures Tidy(w.q)
  {
  }

  /** The last outcome of a history that ends with it. */
  lemma LastCounted(w: World)
    requires BeingCounted(w) && (w.drain.Ending? || w.drain.Recording?)
    ensures Streak(w.history) == Count(Streak(Without(w.history, true)), w.drain.outcome)
  {
    hide Streak, Count;
    StreakGrows(Without(w.history, true), w.drain.outcome);
    assert w.history == Without(w.history, true) + [w.drain.outcome];
  }

  /** From an exact counter, exactly the steps that lose a count make it inexact. */
  lemma ExactStep(limits: Limits, w: World, s: Step)
    requires Inv(w) && BeingCounted(w) && Enabled(w, s) && Exact(w)
    ensures BeingCounted(After(limits, w, s))
    ensures Exact(After(limits, w, s)) <==> !LosesACount(w, s)
  {
    hide Tidy, EntriesOk, AttemptsOk, RestOk, AttemptOk, Books, Submit.Submit, Truthful, Streak, Expire, Hydrated,
         Exposure, Ordered, Put, PutAll, Lookup, Count;
    if w.drain.Ending? || w.drain.Recording? {
      LastCounted(w);
    }
    match s
    case ExpireAt(now) => ExpiryKeepsCounter(limits, w, now);
    case Return(key, signature, net) =>
      var r := Submit.Submit(w.drain.queued.payment, key, signature, net);
      if r.Ok? {
        assert (w.history + [r.value])[..|w.history|] == w.history;
      }
    case _ =>
  }

  predicate ExactThrough(worlds: seq<World>, n: nat)
    requires n < |worlds|
  {
    forall k :: 0 <= k <= n ==> Exact(worlds[k])
  }

  predicate NoCountLost(worlds: seq<World>, steps: seq<Step>, n: nat)
    requires n <= |steps| && n < |worlds|
  {
    forall k :: 0 <= k < n ==> !LosesACount(worlds[k], steps[k])
  }

  lemma OneMore(worlds: seq<World>, steps: seq<Step>, n: nat)
    requires 0 < n <= |steps| && n < |worlds|
    ensures ExactThrough(worlds, n) <==> ExactThrough(worlds, n - 1) && Exact(worlds[n])
    ensures ExactThrough(worlds, n - 1) ==> Exact(worlds[n - 1])
    ensures NoCountLost(worlds, steps, n) <==>
            NoCountLost(worlds, steps, n - 1) && !LosesACount(worlds[n - 1], steps[n - 1])
  {
  }

  lemma NothingYet(limits: Limits, worlds: seq<World>, steps: seq<Step>)
    requires IsRun(limits, worlds, steps)
    ensures ExactThrough(worlds, 0) && BeingCounted(worlds[0])
  {
  }

  lemma {:induction false} ExactSoFar(limits: Limits, worlds: seq<World>, steps: seq<Step>, n: nat)
    requires IsRun(limits, worlds, steps) && n <= |steps|
    ensures ExactThrough(worlds, n) <==> NoCountLost(worlds, steps, n)
    ensures NoCountLost(worlds, steps, n) ==> BeingCounted(worlds[n])
    decreases n
  {
    NothingYet(limits, worlds, steps);
    hide IsRun, Inv, Enabled, After, LosesACount, Exact, BeingCounted, ExactThrough;
    if n > 0 {
      ExactSoFar(limits, worlds, steps, n - 1);
      OneMore(worlds, steps, n);
      if NoCountLost(worlds, steps, n - 1) {
        RunsKeepInv(limits, worlds, steps, n - 1);
        RunStep(limits, worlds, steps, n - 1);
        ExactStep(limits, worlds[n - 1], steps[n - 1]);
      }
    }
  }

  /**
    Throughout a run the failure counter, in memory and in the store, is the number of counting failures
    since the last settlement in the whole history of outcomes, reloads included, if and only if no crash
    of the run falls between an outcome and the store having it counted when counting would have moved it.
   */
  lemma CounterIsHistory(limits: Limits, worlds: seq<World>, steps: seq<Step>)
    requires IsRun(limits, worlds, steps)
    ensures (forall k :: 0 <= k <= |steps| ==> Exact(worlds[k]))
            <==> (forall k :: 0 <= k < |steps| ==> !LosesACount(worlds[k], steps[k]))
  {
    hide IsRun, LosesACount, Exact;
    ExactSoFar(limits, worlds, steps, |steps|);
  }

  // --- acceptance ----------------------------------------------------------------------------------

  /** The rules of acceptance, said of the run: what was accepted, what is exposed, how many sends failed. */
  ghost predicate MayAccept(limits: Limits, w: World, payment: VerifiedPayment, tier: Tier,
                            precheck: Option<NonceVerdict>) {
    && IdOf(payment) !in w.acceptances && !BeingSaved(w.q, IdOf(payment))
    && (tier == T1 && payment.input.nonceRef.Some? ==> precheck.Some? && precheck.value.Passes?)
    && w.q.consecutiveFailedSends < limits.maxConsecutiveFailedSends
    && payment.input.amount <= limits.receiptCap(tier)
    && (tier != T0 ==> Total(w.q.payments, Exposed) + payment.input.amount <= limits.queueExposureCap)
  }

  /**
    A payment offered at any step of any run is taken exactly when it was never accepted before nor is
    being, T1 has a passing check of its nonce, the failed sends counted are fewer than the limit, and the
    amount fits its tier's cap and the exposure cap; then it is queued and its write issued.  Until a
    count is lost, the failed sends counted are the counting failures since the last settlement.
   */
  lemma AcceptedExactlyWhen(limits: Limits, worlds: seq<World>, steps: seq<Step>, k: nat)
    requires IsRun(limits, worlds, steps) && k < |steps| && steps[k].AcceptPayment?
    ensures var w, s := worlds[k], steps[k];
            if MayAccept(limits, w, s.payment, s.tier, s.precheck)
            then worlds[k + 1] == w.(q := Issue(w.q, QueuedPayment(IdOf(s.payment), s.payment, s.tier, s.now,
                                                                   s.payment.input.amount, 0, None, Queued)))
            else worlds[k + 1] == w
    ensures NoCountLost(worlds, steps, k) ==>
              worlds[k].q.consecutiveFailedSends == Streak(Without(worlds[k].history, Uncounted(worlds[k])))
  {
    var w, s := worlds[k], steps[k];
    ExactSoFar(limits, worlds, steps, k);
    RunsKeepInv(limits, worlds, steps, k);
    RunStep(limits, worlds, steps, k);
    assert NoCountLost(worlds, steps, k) ==> Exact(w);
    hide IsRun, Inv, Exposure, Streak, ExactThrough, Issue, NoCountLost, Lookup, BeingSaved;
    HeldExactly(w, IdOf(s.payment));
    ExposureIsTotal(limits, w.q.payments);
  }

  // --- attempts that leave no outcome --------------------------------------------------------------

  lemma UnreportedStep(limits: Limits, w: World, s: Step, id: PaymentId)
    requires Enabled(w, s) && id in w.unreported
    ensures id in After(limits, w, s).unreported
  {
    hide Submit.Submit, Expire, Ordered, Hydrated, Issue, Exposure;
  }

  /** A payment whose attempt left no outcome is never settled: it stays `submitting` until it is voided. */
  lemma {:induction false} UnreportedNeverSettles(limits: Limits, worlds: seq<World>, steps: seq<Step>, j: nat, k: nat,
                                                  id: PaymentId)
    requires IsRun(limits, worlds, steps) && j <= k <= |steps| && id in worlds[j].unreported
    ensures id in worlds[k].unreported
    ensures Lookup(worlds[k].q.payments, id).Some?
            && Lookup(worlds[k].q.payments, id).value.state in {Submitting, Voided}
    decreases k - j
  {
    hide Inv, Enabled, After;
    if j < k {
      UnreportedNeverSettles(limits, worlds, steps, j, k - 1, id);
      RunStep(limits, worlds, steps, k - 1);
      UnreportedStep(limits, worlds[k - 1], steps[k - 1], id);
    }
    RunsKeepInv(limits, worlds, steps, k);
    UnreportedIsOpen(worlds[k], id);
  }

  lemma UnreportedIsOpen(w: World, id: PaymentId)
    requires Inv(w) && id in w.unreported
    ensures Lookup(w.q.payments, id).Some? && Lookup(w.q.payments, id).value.state in {Submitting, Voided}
  {
    assert InFlight(w, id);
    HeldExactly(w, id);
    HeldIsOk(w, Lookup(w.q.payments, id).value);
    hide Tidy, EntriesOk, RestOk;
  }
}
