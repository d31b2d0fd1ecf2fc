/** Runs at which the queue's properties stop holding: one crash, between a save and its write or between two steps. */
module QueueFailures {
  import opened Common
  import opened Types
  import opened Canonical
  import opened Sign
  import opened Submit
  import opened QueueModel
  import opened QueueLaws
  import opened QueueRuns
  import opened QueueExposure
  import opened QueueOutcomes

  // --- runs step by step ---------------------------------------------------------------------------

  const MERCHANT: Key := Repeated(1, 32)
  const BLOCKHASH: Key := Repeated(3, 32)
  const SIGNATURE: seq<Byte> := Repeated(4, 64)

  function SmallLimits(): Limits {
    Limits((tier: Tier) => 10, 10, 3, 1000, (id: PaymentId) => 0)
  }

  /** The worlds a list of steps goes through, as far as each is enabled. */
  ghost function Trace(w: World, steps: seq<Step>): seq<World>
    decreases |steps|
  {
    if steps == [] || !Enabled(w, steps[0]) then [w]
    else [w] + Trace(After(SmallLimits(), w, steps[0]), steps[1..])
  }

  ghost predicate Leads(w: World, steps: seq<Step>, v: World)
    decreases |steps|
  {
    if steps == [] then w == v
    else Enabled(w, steps[0]) && Leads(After(SmallLimits(), w, steps[0]), steps[1..], v)
  }

  lemma {:induction false} LeadsThen(w: World, steps: seq<Step>, u: World, s: Step, v: World)
    requires Leads(w, steps, u) && Enabled(u, s) && After(SmallLimits(), u, s) == v
    ensures Leads(w, steps + [s], v)
    decreases |steps|
  {
    hide Enabled, After;
    if steps == [] {
      assert steps + [s] == [s] && [s][1..] == [];
      assert Leads(v, [], v);
    } else {
      LeadsThen(After(SmallLimits(), w, steps[0]), steps[1..], u, s, v);
      assert (steps + [s])[1..] == steps[1..] + [s];
    }
  }

  lemma {:induction false} TraceAt(w: World, steps: seq<Step>, k: nat, u: World)
    requires k <= |steps| && Leads(w, steps[..k], u)
    ensures |Trace(w, steps)| > k && Trace(w, steps)[k] == u
    decreases |steps|
  {
    hide Enabled, After;
    if k > 0 {
      assert steps[..k][0] == steps[0] && steps[..k][1..] == steps[1..][..k - 1];
      TraceAt(After(SmallLimits(), w, steps[0]), steps[1..], k - 1, u);
    }
  }

  lemma {:induction false} TraceFollows(w: World, steps: seq<Step>, v: World)
    requires Leads(w, steps, v)
    ensures |Trace(w, steps)| == |steps| + 1 && Trace(w, steps)[0] == w && Trace(w, steps)[|steps|] == v
    ensures forall k :: 0 <= k < |steps| ==>
                          && Enabled(Trace(w, steps)[k], steps[k])
                          && Trace(w, steps)[k + 1] == After(SmallLimits(), Trace(w, steps)[k], steps[k])
    decreases |steps|
  {
    hide Enabled, After;
    if steps != [] {
      var rest := Trace(After(SmallLimits(), w, steps[0]), steps[1..]);
      TraceFollows(After(SmallLimits(), w, steps[0]), steps[1..], v);
      forall k | 0 <= k < |steps|
        ensures Enabled(Trace(w, steps)[k], steps[k])
                && Trace(w, steps)[k + 1] == After(SmallLimits(), Trace(w, steps)[k], steps[k])
      {
        if k > 0 {
          assert Trace(w, steps)[k] == rest[k - 1] && Trace(w, steps)[k + 1] == rest[k];
          assert steps[k] == steps[1..][k - 1];
        }
      }
    }
  }

  // --- the payments --------------------------------------------------------------------------------

  function Purchase(payer: Key, amount: int): VerifiedPayment {
    VerifiedPayment(
      CanonicalInput(
        Intent(MERCHANT, BLOCKHASH, 6, Some(amount), Fresh(BLOCKHASH, 0), false, SplToken, MERCHANT, false),
        payer, None, amount),
      Message(Wallet(MERCHANT), BLOCKHASH, []),
      Auth(payer, None, None, SIGNATURE))
  }

  function Five(): VerifiedPayment {
    Purchase(Repeated(2, 32), 5)
  }

  function Ten(): VerifiedPayment {
    Purchase(Repeated(5, 32), 10)
  }

  function Entry(state: EntryState): QueuedPayment {
    QueuedPayment(IdOf(Five()), Five(), T2, 0, 5, 0, None, state)
  }

  /** The payment of five, queued: in memory, then in the store. */
  function Queueing(): seq<Step> {
    [AcceptPayment(Five(), T2, None, 0), Store(0)]
  }

  function At(memory: seq<QueuedPayment>, stored: seq<QueuedPayment>, pending: seq<QueuedPayment>,
              drain: Drain): World {
    World(QueueState(memory, 0, stored, None, pending), drain, START.chain, [], [IdOf(Five())], {})
  }

  lemma QueueingLeads()
    ensures Leads(START, Queueing(), At([Entry(Queued)], [Entry(Queued)], [], Idle))
  {
    var e := Entry(Queued);
    var issued := At([e], [], [e], Idle).(acceptances := []);
    assert Enabled(START, Queueing()[0]) && After(SmallLimits(), START, Queueing()[0]) == issued;
    assert After(SmallLimits(), issued, Queueing()[1]) == At([e], [e], [], Idle);
    LeadsThen(START, [], START, Queueing()[0], issued);
    LeadsThen(START, [Queueing()[0]], issued, Queueing()[1], At([e], [e], [], Idle));
    assert [] + [Queueing()[0]] == [Queueing()[0]] && [Queueing()[0]] + [Queueing()[1]] == Queueing();
  }

  // --- a voiding that is lost ----------------------------------------------------------------------

  /** The payment outlives its window and is voided, and the crash comes before the store has the voiding. */
  function VoidingSteps(): seq<Step> {
    Queueing() + [ExpireAt(1000)] + [Restart([IdOf(Five())])]
  }

  lemma ExpiryIssues()
    ensures var e, v := Entry(Queued), VoidedEntry(Entry(Queued));
            Expire(SmallLimits(), QueueState([e], 0, [e], None, []), 1000) == (QueueState([v], 0, [e], None, [v]), [v])
  {
    var e := Entry(Queued);
    assert Ordered(SmallLimits(), [e]) == [e] by {
      assert [e][..0] == [];
    }
    assert [e][1..] == [];
    assert Voidings(SmallLimits(), [e], 1000) == [VoidedEntry(e)];
    assert [VoidedEntry(e)][1..] == [];
    assert Issue(QueueState([e], 0, [e], None, []), VoidedEntry(e))
           == QueueState([VoidedEntry(e)], 0, [e], None, [VoidedEntry(e)]);
  }

  lemma ExpiryLeads()
    ensures Leads(START, Queueing() + [ExpireAt(1000)],
                  At([VoidedEntry(Entry(Queued))], [Entry(Queued)], [VoidedEntry(Entry(Queued))], Idle))
  {
    QueueingLeads();
    ExpiryIssues();
    hide Leads, Expire;
    LeadsThen(START, Queueing(), At([Entry(Queued)], [Entry(Queued)], [], Idle), ExpireAt(1000),
              At([VoidedEntry(Entry(Queued))], [Entry(Queued)], [VoidedEntry(Entry(Queued))], Idle));
  }

  lemma LoadingOne(e: QueuedPayment)
    ensures Load(NewQueue([e], None), [e.id]) == QueueState([e], 0, [e], None, [])
    ensures Lists([e], [e.id])
  {
    assert [e.id][1..] == [] && PutAll([e], []) == [e];
    assert Hydrated([], [e], [e.id]) == Hydrated([e], [e], []);
  }

  lemma LeftByOne(e: QueuedPayment)
    ensures LeftSubmitting([e]) == if e.state == Submitting then {e.id} else {}
  {
  }

  lemma VoidingLeads()
    ensures Leads(START, VoidingSteps(), At([Entry(Queued)], [Entry(Queued)], [], Idle))
  {
    ExpiryLeads();
    LoadingOne(Entry(Queued));
    LeftByOne(Entry(Queued));
    hide Leads, Load, LeftSubmitting, Lists;
    LeadsThen(START, Queueing() + [ExpireAt(1000)],
              At([VoidedEntry(Entry(Queued))], [Entry(Queued)], [VoidedEntry(Entry(Queued))], Idle),
              Restart([IdOf(Five())]), At([Entry(Queued)], [Entry(Queued)], [], Idle));
  }

  /**
    A payment that `expire` returned as voided can be queued again: the exposure it left comes back, and the
    next drain will submit it.
   */
  lemma AVoidingCanBeLost()
    ensures var worlds := Trace(START, VoidingSteps());
            && IsRun(SmallLimits(), worlds, VoidingSteps())
            && VoidedEntry(Entry(Queued)) in worlds[3].q.payments && Total(worlds[3].q.payments, Exposed) == 0
            && worlds[4].q.payments == [Entry(Queued)] && Eligible(Entry(Queued))
            && Total(worlds[4].q.payments, Exposed) == 5
  {
    VoidingLeads();
    ExpiryLeads();
    assert VoidingSteps()[..3] == Queueing() + [ExpireAt(1000)];
    hide Leads, Enabled, After;
    TraceAt(START, VoidingSteps(), 3,
            At([VoidedEntry(Entry(Queued))], [Entry(Queued)], [VoidedEntry(Entry(Queued))], Idle));
    TraceFollows(START, VoidingSteps(), At([Entry(Queued)], [Entry(Queued)], [], Idle));
    TotalOfOne(Entry(Queued));
    TotalOfOne(VoidedEntry(Entry(Queued)));
  }

  lemma TotalOfOne(e: QueuedPayment)
    ensures Total([e], Exposed) == Exposed(e)
  {
  }

  // --- a cap that is passed ------------------------------------------------------------------------

  /** After the voiding another payment fits; the store has that one first, and then the crash comes. */
  function OverlappingSteps(): seq<Step> {
    Queueing() + [ExpireAt(1000)] + [AcceptPayment(Ten(), T2, None, 1000)] + [Store(1)]
    + [Restart([IdOf(Five()), IdOf(Ten())])]
  }

  function Later(): QueuedPayment {
    QueuedPayment(IdOf(Ten()), Ten(), T2, 1000, 10, 0, None, Queued)
  }

  lemma TwoPayers()
    ensures IdOf(Five()) != IdOf(Ten())
  {
    assert Repeated(2, 32)[0] != Repeated(5, 32)[0];
  }

  lemma SecondFits()
    ensures var v := VoidedEntry(Entry(Queued));
            Refusal(SmallLimits(), QueueState([v], 0, [Entry(Queued)], None, [v]), Ten(), T2, 10, None) == None
  {
    var v := VoidedEntry(Entry(Queued));
    TwoPayers();
    ExposureIsTotal(SmallLimits(), [v]);
    TotalOfOne(v);
    hide Exposure, Total, Repeated;
  }

  lemma SecondLeads()
    ensures var v := VoidedEntry(Entry(Queued));
            Leads(START, Queueing() + [ExpireAt(1000)] + [AcceptPayment(Ten(), T2, None, 1000)],
                  At([v, Later()], [Entry(Queued)], [v, Later()], Idle))
  {
    var v := VoidedEntry(Entry(Queued));
    ExpiryLeads();
    SecondFits();
    TwoPayers();
    assert Put([v], Later()) == [v, Later()] by {
      assert [v][1..] == [] && Put([], Later()) == [Later()];
    }
    assert [v] + [Later()] == [v, Later()];
    hide Leads, Refusal, Put, Repeated;
    LeadsThen(START, Queueing() + [ExpireAt(1000)], At([v], [Entry(Queued)], [v], Idle),
              AcceptPayment(Ten(), T2, None, 1000), At([v, Later()], [Entry(Queued)], [v, Later()], Idle));
  }

  function Both(memory: seq<QueuedPayment>, pending: seq<QueuedPayment>): World {
    At(memory, [Entry(Queued), Later()], pending, Idle).(acceptances := [IdOf(Five()), IdOf(Ten())])
  }

  lemma StoredFirst()
    ensures var v := VoidedEntry(Entry(Queued));
            Leads(START, Queueing() + [ExpireAt(1000)] + [AcceptPayment(Ten(), T2, None, 1000)] + [Store(1)],
                  Both([v, Later()], [v]))
  {
    var v, e := VoidedEntry(Entry(Queued)), Entry(Queued);
    SecondLeads();
    TwoPayers();
    assert Put([e], Later()) == [e, Later()] && Lookup([e], Later().id).None? by {
      assert [e][1..] == [] && Put([], Later()) == [Later()];
    }
    assert [v, Later()][..1] + [v, Later()][2..] == [v];
    assert [IdOf(Five())] + [IdOf(Ten())] == [IdOf(Five()), IdOf(Ten())];
    hide Leads, Put, Repeated, Lookup;
    LeadsThen(START, Queueing() + [ExpireAt(1000)] + [AcceptPayment(Ten(), T2, None, 1000)],
              At([v, Later()], [e], [v, Later()], Idle), Store(1), Both([v, Later()], [v]));
  }

  lemma LoadingTwo()
    ensures var stored, keys := [Entry(Queued), Later()], [IdOf(Five()), IdOf(Ten())];
            Load(NewQueue(stored, None), keys) == QueueState(stored, 0, stored, None, []) && Lists(stored, keys)
            && LeftSubmitting(stored) == {}
  {
    TwoPayers();
    hide Repeated;
    var e, stored, keys := Entry(Queued), [Entry(Queued), Later()], [IdOf(Five()), IdOf(Ten())];
    assert stored[1..] == [Later()] && keys[1..] == [IdOf(Ten())] && keys[1..][1..] == [];
    assert [e][1..] == [] && Put([], Later()) == [Later()] && Put([e], Later()) == stored;
    assert Lookup(stored, keys[0]) == Some(e) && Lookup(stored, keys[1]) == Some(Later());
    assert Hydrated([e, Later()], stored, []) == stored;
    assert Hydrated([e], stored, keys[1..]) == Hydrated([e, Later()], stored, []);
    assert Hydrated([], stored, keys) == Hydrated([e], stored, keys[1..]);
    assert PutAll(stored, []) == stored;
    forall id
      ensures id in keys <==> Lookup(stored, id).Some?
    {
      assert Lookup(stored[1..], id).Some? <==> id == IdOf(Ten());
    }
  }

  lemma OverlappingLeads()
    ensures Leads(START, OverlappingSteps(), Both([Entry(Queued), Later()], []))
  {
    StoredFirst();
    LoadingTwo();
    hide Leads, Load, LeftSubmitting, Lists, Repeated;
    var v := VoidedEntry(Entry(Queued));
    LeadsThen(START, Queueing() + [ExpireAt(1000)] + [AcceptPayment(Ten(), T2, None, 1000)] + [Store(1)],
              Both([v, Later()], [v]), Restart([IdOf(Five()), IdOf(Ten())]), Both([Entry(Queued), Later()], []));
  }

  /**
    A store that keeps the order of the writes for each key, but not of all of them, lets a crash carry the
    exposure past the cap: the acceptance that a voiding made room for is stored and the voiding is not.
   */
  lemma ReorderedWritesPassTheCap()
    ensures var worlds := Trace(START, OverlappingSteps());
            && IsRun(SmallLimits(), worlds, OverlappingSteps()) && !InOrder(OverlappingSteps())
            && Exposure(SmallLimits(), worlds[6].q.payments) == 15 > SmallLimits().queueExposureCap
  {
    OverlappingLeads();
    assert OverlappingSteps()[4] == Store(1);
    hide Leads, Enabled, After, Repeated;
    TraceFollows(START, OverlappingSteps(), Both([Entry(Queued), Later()], []));
    ExposureIsTotal(SmallLimits(), [Entry(Queued), Later()]);
    assert [Entry(Queued), Later()][1..] == [Later()];
    TotalOfOne(Later());
  }

  // --- a failure that is not counted ---------------------------------------------------------------

  /** The transaction landed and failed, and the lookup says so. */
  const FAILING: Network := Network(Threw(NoHint), None, NoHint, Some(LandedFailed), None, None)

  const FAILURE: SubmitOutcome := FailedAs(SUBMIT_EXECUTION_FAILED, true)

  /** The payment is saved as submitting, the store has it so, and it is sent. */
  function SendingSteps(): seq<Step> {
    Queueing() + [StartDrain] + [Choose] + [Store(0)] + [Send]
  }

  function Sent(): World {
    At([Entry(Submitting)], [Entry(Submitting)], [], Sending(Entry(Queued), []))
  }

  lemma ChosenLeads()
    ensures Leads(START, Queueing() + [StartDrain] + [Choose],
                  At([Entry(Submitting)], [Entry(Queued)], [Entry(Submitting)], Saving(Entry(Queued), [])))
  {
    var e := Entry(Queued);
    QueueingLeads();
    assert Ordered(SmallLimits(), [e]) == [e] by {
      assert [e][..0] == [];
    }
    assert [e][1..] == [] && Put([e], Begun(e)) == [Begun(e)] && [] + [Begun(e)] == [Begun(e)];
    hide Leads, Ordered, Put, Repeated;
    LeadsThen(START, Queueing(), At([e], [e], [], Idle), StartDrain, At([e], [e], [], Choosing([e])));
    LeadsThen(START, Queueing() + [StartDrain], At([e], [e], [], Choosing([e])), Choose,
              At([Begun(e)], [e], [Begun(e)], Saving(e, [])));
  }

  lemma SendingLeads()
    ensures Leads(START, SendingSteps(), Sent())
  {
    var e, b := Entry(Queued), Entry(Submitting);
    ChosenLeads();
    assert Put([e], b) == [b] && [b][..0] + [b][1..] == [] && Lookup([e], b.id) == Some(e);
    hide Leads, Put, Lookup, Repeated;
    LeadsThen(START, Queueing() + [StartDrain] + [Choose], At([b], [e], [b], Saving(e, [])), Store(0),
              At([b], [b], [], Saving(e, [])));
    LeadsThen(START, Queueing() + [StartDrain] + [Choose] + [Store(0)], At([b], [b], [], Saving(e, [])), Send, Sent());
  }

  function LandedWorld(status: SignatureOutcome): World {
    Sent().(chain := Landed(START.chain, IdOf(Five()), status))
  }

  function LandingSteps(status: SignatureOutcome): seq<Step> {
    SendingSteps() + [Land(IdOf(Five()), status)]
  }

  lemma Lands(status: SignatureOutcome)
    requires status != NotSeen
    ensures Enabled(Sent(), Land(IdOf(Five()), status))
            && After(SmallLimits(), Sent(), Land(IdOf(Five()), status)) == LandedWorld(status)
  {
    assert InFlight(Sent(), IdOf(Five()));
  }

  lemma LandingLeads(status: SignatureOutcome)
    requires status != NotSeen
    ensures Leads(START, LandingSteps(status), LandedWorld(status))
  {
    SendingLeads();
    Lands(status);
    hide Leads, Enabled, After, SendingSteps, LandedWorld;
    LeadsThen(START, SendingSteps(), Sent(), Land(IdOf(Five()), status), LandedWorld(status));
  }

  /** It lands and fails, the attempt says so and the store has that; the crash comes before the failure is counted. */
  function CrashingSteps(): seq<Step> {
    LandingSteps(LandedFailed) + [Return(MERCHANT, SIGNATURE, FAILING)] + [Store(0)] + [Restart([IdOf(Five())])]
  }

  function Failing(memory: seq<QueuedPayment>, stored: seq<QueuedPayment>, pending: seq<QueuedPayment>,
                   drain: Drain): World {
    At(memory, stored, pending, drain).(chain := Landed(START.chain, IdOf(Five()), LandedFailed), history := [FAILURE])
  }

  lemma Returns()
    ensures var x, s := Ended(Entry(Queued), FAILURE), Return(MERCHANT, SIGNATURE, FAILING);
            Enabled(LandedWorld(LandedFailed), s)
            && After(SmallLimits(), LandedWorld(LandedFailed), s)
            == Failing([x], [Entry(Submitting)], [x], Ending(Entry(Queued), FAILURE, []))
  {
    var x, b := Ended(Entry(Queued), FAILURE), Entry(Submitting);
    assert Submit.Submit(Five(), MERCHANT, SIGNATURE, FAILING) == Ok(FAILURE);
    assert Put([b], x) == [x] && [] + [x] == [x] && [] + [FAILURE] == [FAILURE];
    hide Put, Submit.Submit, Repeated;
  }

  lemma ReturnLeads()
    ensures var x := Ended(Entry(Queued), FAILURE);
            Leads(START, LandingSteps(LandedFailed) + [Return(MERCHANT, SIGNATURE, FAILING)],
                  Failing([x], [Entry(Submitting)], [x], Ending(Entry(Queued), FAILURE, [])))
  {
    var x := Ended(Entry(Queued), FAILURE);
    LandingLeads(LandedFailed);
    Returns();
    hide Leads, Enabled, After, LandingSteps, LandedWorld, Failing;
    LeadsThen(START, LandingSteps(LandedFailed), LandedWorld(LandedFailed), Return(MERCHANT, SIGNATURE, FAILING),
              Failing([x], [Entry(Submitting)], [x], Ending(Entry(Queued), FAILURE, [])));
  }

  lemma EndingLeads()
    ensures var x := Ended(Entry(Queued), FAILURE);
            Leads(START, LandingSteps(LandedFailed) + [Return(MERCHANT, SIGNATURE, FAILING)] + [Store(0)],
                  Failing([x], [x], [], Ending(Entry(Queued), FAILURE, [])))
  {
    var x, b := Ended(Entry(Queued), FAILURE), Entry(Submitting);
    ReturnLeads();
    assert Put([b], x) == [x] && [x][..0] + [x][1..] == [] && Lookup([b], x.id) == Some(b);
    hide Leads, Put, Lookup, Repeated, LandingSteps, SendingSteps;
    LeadsThen(START, LandingSteps(LandedFailed) + [Return(MERCHANT, SIGNATURE, FAILING)],
              Failing([x], [b], [x], Ending(Entry(Queued), FAILURE, [])), Store(0),
              Failing([x], [x], [], Ending(Entry(Queued), FAILURE, [])));
  }

  lemma CrashingLeads()
    ensures var x := Ended(Entry(Queued), FAILURE); Leads(START, CrashingSteps(), Failing([x], [x], [], Idle))
  {
    var x := Ended(Entry(Queued), FAILURE);
    EndingLeads();
    LoadingOne(x);
    LeftByOne(x);
    hide Leads, Load, LeftSubmitting, Lists, Repeated, LandingSteps, SendingSteps;
    LeadsThen(START, LandingSteps(LandedFailed) + [Return(MERCHANT, SIGNATURE, FAILING)] + [Store(0)],
              Failing([x], [x], [], Ending(Entry(Queued), FAILURE, [])), Restart([IdOf(Five())]),
              Failing([x], [x], [], Idle));
  }

  lemma CountIsLost()
    ensures var x := Ended(Entry(Queued), FAILURE);
            && LosesACount(Failing([x], [x], [], Ending(Entry(Queued), FAILURE, [])), Restart([IdOf(Five())]))
            && !Exact(Failing([x], [x], [], Idle)) && Streak([FAILURE]) == 1
  {
    hide Entry, Ended, Five, IdOf, Exact, LosesACount;
    CountNeverStored(Ended(Entry(Queued), FAILURE), Entry(Queued));
    NeverCounted(Ended(Entry(Queued), FAILURE));
    OneFailure();
  }

  lemma OneFailure()
    ensures Streak([FAILURE]) == 1
  {
    hide SinceSettlement, CountingFailures, Streak;
    NothingStreaks();
    StreakGrows([], FAILURE);
    assert [] + [FAILURE] == [FAILURE];
  }

  lemma CountNeverStored(x: QueuedPayment, e: QueuedPayment)
    ensures LosesACount(Failing([x], [x], [], Ending(e, FAILURE, [])), Restart([IdOf(Five())]))
  {
  }

  lemma NeverCounted(x: QueuedPayment)
    ensures !Exact(Failing([x], [x], [], Idle))
  {
    hide SinceSettlement, CountingFailures, Streak, Five, IdOf;
    OneFailure();
  }

  lemma NothingStreaks()
    ensures Streak([]) == 0
  {
  }

  /** The counter can fall short: after this run one counting failure is on record and none is counted. */
  lemma ACrashCanLoseACount()
    ensures var worlds := Trace(START, CrashingSteps());
            && IsRun(SmallLimits(), worlds, CrashingSteps())
            && |CrashingSteps()| == 10 && LosesACount(worlds[9], CrashingSteps()[9])
            && !Exact(worlds[10]) && Streak(worlds[10].history) == 1 && worlds[10].q.consecutiveFailedSends == 0
  {
    hide Leads, Enabled, After, Streak, Exact, LosesACount, Repeated, Landed, CrashingSteps, Trace, At, Entry, Five,
         Ended;
    var x := Ended(Entry(Queued), FAILURE);
    CrashingLeads();
    EndingLeads();
    CountIsLost();
    CrashingLast();
    TraceAt(START, CrashingSteps(), 9, Failing([x], [x], [], Ending(Entry(Queued), FAILURE, [])));
    TraceFollows(START, CrashingSteps(), Failing([x], [x], [], Idle));
    FailingHistory(x);
  }

  lemma FailingHistory(x: QueuedPayment)
    ensures Failing([x], [x], [], Idle).history == [FAILURE]
            && Failing([x], [x], [], Idle).q.consecutiveFailedSends == 0
  {
  }

  lemma CrashingLast()
    ensures |CrashingSteps()| == 10 && CrashingSteps()[9] == Restart([IdOf(Five())])
    ensures CrashingSteps()[..9] == LandingSteps(LandedFailed) + [Return(MERCHANT, SIGNATURE, FAILING)] + [Store(0)]
  {
    hide Repeated;
  }

  // --- a payment that landed and is never settled --------------------------------------------------

  /** The same payment, but it lands and succeeds, and the crash comes before its attempt reports. */
  function SilentSteps(): seq<Step> {
    LandingSteps(LandedOk) + [Restart([IdOf(Five())])]
  }

  function Silent(): World {
    LandedWorld(LandedOk).(drain := Idle, unreported := {IdOf(Five())})
  }

  lemma Falls()
    ensures Enabled(LandedWorld(LandedOk), Restart([IdOf(Five())]))
            && After(SmallLimits(), LandedWorld(LandedOk), Restart([IdOf(Five())])) == Silent()
  {
    LoadingOne(Entry(Submitting));
    LeftByOne(Entry(Submitting));
    assert {} + {IdOf(Five())} == {IdOf(Five())};
    hide Load, LeftSubmitting, Lists, Repeated;
  }

  lemma SilentLeads()
    ensures Leads(START, SilentSteps(), Silent())
  {
    LandingLeads(LandedOk);
    Falls();
    hide Leads, Enabled, After, LandingSteps, LandedWorld, Silent;
    LeadsThen(START, LandingSteps(LandedOk), LandedWorld(LandedOk), Restart([IdOf(Five())]), Silent());
  }

  /** A payment can land and never be settled: delivered, sent by an attempt that a crash cut short, not settled. */
  lemma ALandedPaymentCanStayUnsettled()
    ensures var w := Silent();
            && IsRun(SmallLimits(), Trace(START, SilentSteps()), SilentSteps())
            && Trace(START, SilentSteps())[|SilentSteps()|] == w
            && IdOf(Five()) in w.unreported && w.chain(IdOf(Five())) == LandedOk
            && Total(w.q.payments, SettledAmount) == 0 && Total(w.q.payments, Delivered(w)) == 5
  {
    SilentLeads();
    hide Leads, Enabled, After, Repeated, SilentSteps;
    TraceFollows(START, SilentSteps(), Silent());
    var b := Entry(Submitting);
    assert [b][1..] == [];
    assert Total([b], Delivered(Silent())) == Delivered(Silent())(b) + Total([b][1..], Delivered(Silent()));
  }
}
