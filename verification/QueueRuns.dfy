/**
  The queue over whole runs: payments accepted while a drain is between two of its steps, a store that
  stores each write some time after it was issued, crashes and reloads at any moment, and a chain that
  decides on its own when a transaction that was sent lands.
 */
module QueueRuns {
  import opened Common
  import opened Sign
  import opened NonceCheck
  import opened Submit
  import opened QueueModel
  import opened QueueLaws

  /** Where the one drain is: `rest` is what its snapshot still holds. */
  datatype Drain =
    | Idle
    | Choosing(rest: seq<QueuedPayment>)
      // Awaiting the write that says it is submitting.
    | Saving(queued: QueuedPayment, rest: seq<QueuedPayment>)
    | Sending(queued: QueuedPayment, rest: seq<QueuedPayment>)
      // Awaiting the write of the outcome, which is not counted yet.
    | Ending(queued: QueuedPayment, outcome: SubmitOutcome, rest: seq<QueuedPayment>)
      // Counted in memory, awaiting the write of the counter.
    | Recording(outcome: SubmitOutcome, rest: seq<QueuedPayment>)

  /**
    `chain` is how each payment's transaction has ended so far, `history` every outcome an attempt
    reported, `acceptances` the payments whose acceptance the store has, which is when `accept` answers,
    and `unreported` the payments whose attempt left no outcome in the store: it threw, or a crash came
    first.  Any of these may still land, as if its transaction had been sent.
   */
  datatype World = World(
    q: QueueState,
    drain: Drain,
    chain: PaymentId -> SignatureOutcome,
    history: seq<SubmitOutcome>,
    acceptances: seq<PaymentId>,
    unreported: set<PaymentId>)

  datatype Step =
    | AcceptPayment(payment: VerifiedPayment, tier: Tier, precheck: Option<NonceVerdict>, now: int)
    | StartDrain
    | Choose
      // The store stores one of the writes it was given.
    | Store(k: nat)
    | Send
    | Land(id: PaymentId, status: SignatureOutcome)
    | Return(key: Key, signature: seq<Byte>, net: Network)
    | CountIt
    | StoreCounter
    | ExpireAt(now: int)
      // A crash, with every write not yet stored lost, then a new queue that loads; `keys` is how the store
      // lists them.
    | Restart(keys: seq<PaymentId>)

  predicate InFlight(w: World, id: PaymentId) {
    id in w.unreported || (w.drain.Sending? && w.drain.queued.id == id)
  }

  function Landed(chain: PaymentId -> SignatureOutcome, id: PaymentId,
                  status: SignatureOutcome): PaymentId -> SignatureOutcome {
    (x: PaymentId) => if x == id then status else chain(x)
  }

  ghost predicate Enabled(w: World, s: Step) {
    match s
    case AcceptPayment(payment, _, _, _) => payment.input.amount >= 0
    case StartDrain => w.drain.Idle?
    case Choose => w.drain.Choosing?
    case Store(k) => OldestOfItsKey(w.q, k)
    case Send => w.drain.Saving? && IsStored(w.q, w.drain.queued.id)
    case Land(id, status) => InFlight(w, id) && w.chain(id) == NotSeen && status != NotSeen
    case Return(_, _, net) => w.drain.Sending? && Truthful(net, w.chain(w.drain.queued.id))
    case CountIt => w.drain.Ending? && IsStored(w.q, w.drain.queued.id)
    case StoreCounter => w.drain.Recording?
    case ExpireAt(_) => w.drain.Idle?
    case Restart(keys) => Lists(w.q.stored, keys)
  }

  /** The payments the store has as submitting. */
  function LeftSubmitting(stored: seq<QueuedPayment>): set<PaymentId> {
    set e | e in stored && e.state == Submitting :: e.id
  }

  ghost function After(limits: Limits, w: World, s: Step): World
    requires Enabled(w, s)
  {
    match s
    case AcceptPayment(payment, tier, precheck, now) =>
      (match Refusal(limits, w.q, payment, tier, payment.input.amount, precheck)
       case Some(_) => w
       case None => w.(q := Issue(w.q, Accepted(payment, tier, payment.input.amount, now))))
    case StartDrain => w.(drain := Choosing(Ordered(limits, w.q.payments)))
    case Choose =>
      var rest := w.drain.rest;
      if rest == [] then w.(drain := Idle)
      else if !Eligible(rest[0]) then w.(drain := Choosing(rest[1..]))
      else w.(q := Issue(w.q, Begun(rest[0])), drain := Saving(rest[0], rest[1..]))
    case Store(k) =>
      var id := w.q.pending[k].id;
      w.(q := StoreAt(w.q, k),
         acceptances := if Lookup(w.q.stored, id).None? then w.acceptances + [id] else w.acceptances)
    case Send => w.(drain := Sending(w.drain.queued, w.drain.rest))
    case Land(id, status) => w.(chain := Landed(w.chain, id, status))
    case Return(key, signature, net) =>
      var queued := w.drain.queued;
      (match Submit.Submit(queued.payment, key, signature, net)
       case Err(_) => w.(drain := Idle, unreported := w.unreported + {queued.id})
       case Ok(outcome) =>
         w.(q := Issue(w.q, Ended(queued, outcome)), drain := Ending(queued, outcome, w.drain.rest),
            history := w.history + [outcome]))
    case CountIt => w.(q := CountInMemory(w.q, w.drain.outcome), drain := Recording(w.drain.outcome, w.drain.rest))
    case StoreCounter => w.(q := SaveMeta(w.q), drain := Choosing(w.drain.rest))
    case ExpireAt(now) => w.(q := Expire(limits, w.q, now).0)
    case Restart(keys) =>
      w.(q := Load(NewQueue(w.q.stored, w.q.storedMeta), keys), drain := Idle,
         unreported := w.unreported + LeftSubmitting(w.q.stored))
  }

  const START: World := World(NewQueue([], None), Idle, (id: PaymentId) => NotSeen, [], [], {})

  ghost predicate IsRun(limits: Limits, worlds: seq<World>, steps: seq<Step>) {
    && |worlds| == |steps| + 1 && worlds[0] == START
    && forall k :: 0 <= k < |steps| ==>
                     Enabled(worlds[k], steps[k]) && worlds[k + 1] == After(limits, worlds[k], steps[k])
  }

  // --- the invariant -------------------------------------------------------------------------------

  /** What every version of an entry says of the chain. */
  predicate EntryOk(w: World, e: QueuedPayment) {
    && e.id == IdOf(e.payment) && e.amount == e.payment.input.amount && e.amount >= 0
    && (e.state == Settled ==> w.chain(e.id) == LandedOk)
    && (Eligible(e) ==> w.chain(e.id) != LandedOk && !InFlight(w, e.id))
    && (e.state == Voided && w.chain(e.id) == LandedOk ==> e.id in w.unreported)
    && (e.id in w.unreported ==> e.state == Submitting || e.state == Voided)
  }

  ghost predicate EntriesOk(w: World) {
    forall e :: Version(w.q, e) ==> EntryOk(w, e)
  }

  predicate Holds(q: QueueState, e: QueuedPayment) {
    Lookup(q.payments, e.id) == Some(e)
  }

  predicate Attempting(w: World, id: PaymentId) {
    (w.drain.Saving? || w.drain.Sending?) && w.drain.queued.id == id
  }

  /** A submitting entry is being attempted, or its attempt is over and left no outcome. */
  ghost predicate AttemptsOk(w: World) {
    forall id :: Lookup(w.q.payments, id).Some? && Lookup(w.q.payments, id).value.state == Submitting
                 ==> id in w.unreported || Attempting(w, id)
  }

  function Rest(drain: Drain): seq<QueuedPayment> {
    if drain.Idle? then [] else drain.rest
  }

  /** What the drain still holds is what memory holds: nothing changes an entry behind its back. */
  ghost predicate RestOk(w: World) {
    Distinct(Rest(w.drain)) && forall e :: e in Rest(w.drain) ==> Holds(w.q, e)
  }

  ghost predicate AttemptOk(w: World) {
    w.drain.Saving? || w.drain.Sending? ==>
      var queued := w.drain.queued;
      && Eligible(queued) && queued.id !in w.unreported && Holds(w.q, Begun(queued))
      && (w.drain.Saving? ==> w.chain(queued.id) != LandedOk)
      && forall e :: e in w.drain.rest ==> e.id != queued.id
  }

  predicate NoDuplicates(ids: seq<PaymentId>) {
    forall j, k :: 0 <= j < k < |ids| ==> ids[j] != ids[k]
  }

  ghost predicate Books(w: World) {
    && NoDuplicates(w.acceptances) && (forall id :: id in w.acceptances <==> Lookup(w.q.stored, id).Some?)
    && (forall id :: w.chain(id) != NotSeen || InFlight(w, id) ==> id in w.acceptances)
  }

  predicate CounterOk(w: World) {
    w.q.consecutiveFailedSends ==
    if w.drain.Recording? then Count(MetaCounter(w.q.storedMeta), w.drain.outcome) else MetaCounter(w.q.storedMeta)
  }

  ghost predicate Inv(w: World) {
    Tidy(w.q) && EntriesOk(w) && AttemptsOk(w) && RestOk(w) && AttemptOk(w) && Books(w) && CounterOk(w)
  }

  // --- saving in memory ----------------------------------------------------------------------------

  lemma EntryLater(w: World, v: World, e: QueuedPayment)
    requires EntryOk(w, e) && v.chain == w.chain && v.unreported == w.unreported
    requires InFlight(v, e.id) ==> InFlight(w, e.id)
    ensures EntryOk(v, e)
  {
  }

  /** A save that goes on from what is held and agrees with the chain: the versions stay sound. */
  lemma SaveEntriesOk(w: World, v: World, e: QueuedPayment)
    requires Tidy(w.q) && EntriesOk(w) && Supersedes(w.q, e) && EntryOk(v, e)
    requires v.q == Issue(w.q, e) && v.chain == w.chain && v.unreported == w.unreported
    requires forall id :: InFlight(v, id) ==> InFlight(w, id)
    ensures Tidy(v.q) && EntriesOk(v)
  {
    hide Tidy, Supersedes, Version, EntryOk, InFlight;
    IssueTidy(w.q, e);
    forall x | Version(v.q, x)
      ensures EntryOk(v, x)
    {
      if x != e {
        EntryLater(w, v, x);
      }
    }
  }

  lemma SaveAttemptsOk(w: World, v: World, e: QueuedPayment)
    requires AttemptsOk(w) && v.q == Issue(w.q, e) && v.unreported == w.unreported
    requires e.state == Submitting ==> e.id in v.unreported || Attempting(v, e.id)
    requires forall id :: id != e.id && Attempting(w, id) ==> Attempting(v, id)
    ensures AttemptsOk(v)
  {
    hide Put, Lookup, Attempting;
    forall id | Lookup(v.q.payments, id).Some? && Lookup(v.q.payments, id).value.state == Submitting
      ensures id in v.unreported || Attempting(v, id)
    {
      LookupPut(w.q.payments, e, id);
    }
  }

  lemma SaveHolds(q: QueueState, e: QueuedPayment, x: QueuedPayment)
    ensures Holds(Issue(q, e), e)
    ensures x.id != e.id && Holds(q, x) ==> Holds(Issue(q, e), x)
  {
    LookupPut(q.payments, e, x.id);
    LookupPut(q.payments, e, e.id);
  }

  lemma SaveRestOk(w: World, v: World, e: QueuedPayment)
    requires v.q == Issue(w.q, e) && Distinct(Rest(v.drain))
    requires forall x :: x in Rest(v.drain) ==> Holds(w.q, x) && x.id != e.id
    ensures RestOk(v)
  {
    hide Distinct, Holds, Put;
    forall x | x in Rest(v.drain)
      ensures Holds(v.q, x)
    {
      SaveHolds(w.q, e, x);
    }
  }

  lemma SaveBooks(w: World, v: World)
    requires Books(w) && v.q.stored == w.q.stored && v.acceptances == w.acceptances && v.chain == w.chain
    requires forall id :: InFlight(v, id) ==> InFlight(w, id)
    ensures Books(v)
  {
    hide InFlight, Lookup, NoDuplicates;
  }

  // --- each step keeps it --------------------------------------------------------------------------

  lemma AcceptSaves(w: World, v: World, e: QueuedPayment)
    requires Inv(w) && v == w.(q := Issue(w.q, e)) && Lookup(w.q.payments, e.id).None?
    requires e.id == IdOf(e.payment) && e.amount == e.payment.input.amount >= 0 && e.state == Queued
    ensures Inv(v)
  {
    NewEntryOk(w, v, e);
    hide EntryOk, Version, Known, FinalIsLast, Lookup, Put, NoDuplicates, Distinct, PutAll;
    SaveEntriesOk(w, v, e);
    SaveAttemptsOk(w, v, e);
    SaveRestOk(w, v, e);
    SaveBooks(w, v);
    if w.drain.Saving? || w.drain.Sending? {
      SaveHolds(w.q, e, Begun(w.drain.queued));
    }
  }

  /** A key memory does not have is nowhere: not in flight, not on the chain. */
  lemma NewEntryOk(w: World, v: World, e: QueuedPayment)
    requires Inv(w) && v == w.(q := Issue(w.q, e)) && Lookup(w.q.payments, e.id).None?
    requires e.id == IdOf(e.payment) && e.amount == e.payment.input.amount >= 0 && e.state == Queued
    ensures EntryOk(v, e)
  {
    StoredIsKnown(w.q, e.id);
    hide Put, Tidy, EntriesOk, AttemptsOk, RestOk, AttemptOk, NoDuplicates, Lookup;
  }

  lemma AcceptKeeps(limits: Limits, w: World, s: Step)
    requires Inv(w) && s.AcceptPayment? && Enabled(w, s)
    ensures Inv(After(limits, w, s))
  {
    hide Inv, Exposure, Issue, Lookup;
    var payment, amount := s.payment, s.payment.input.amount;
    if Refusal(limits, w.q, payment, s.tier, amount, s.precheck).None? {
      AcceptSaves(w, After(limits, w, s), Accepted(payment, s.tier, amount, s.now));
    }
  }

  lemma StartKeeps(limits: Limits, w: World, s: Step)
    requires Inv(w) && s.StartDrain? && Enabled(w, s)
    ensures Inv(After(limits, w, s))
  {
    var v, ordered := After(limits, w, s), Ordered(limits, w.q.payments);
    OrderedSorts(limits, w.q.payments);
    PermutationEntries(w.q.payments, ordered);
    hide Ordered, Known, FinalIsLast, EntriesOk, Lookup, PutAll;
    forall e | e in ordered
      ensures Holds(w.q, e)
    {
      LookupFinds(w.q.payments, e);
    }
    hide Distinct, NoDuplicates, Holds;
    EntriesStay(w, v);
  }

  /** No version is new, the chain stands still, and nothing more is in flight. */
  lemma EntriesStay(w: World, v: World)
    requires EntriesOk(w) && forall x :: Version(v.q, x) ==> Version(w.q, x)
    requires v.chain == w.chain && v.unreported == w.unreported && forall id :: InFlight(v, id) ==> InFlight(w, id)
    ensures EntriesOk(v)
  {
    hide EntryOk, InFlight, Version;
    forall x | Version(v.q, x)
      ensures EntryOk(v, x)
    {
      EntryLater(w, v, x);
    }
  }

  lemma RestOf(rest: seq<QueuedPayment>)
    requires rest != [] && Distinct(rest)
    ensures Distinct(rest[1..]) && forall e :: e in rest[1..] ==> e in rest && e.id != rest[0].id
  {
  }

  lemma HeldIsOk(w: World, e: QueuedPayment)
    requires Tidy(w.q) && EntriesOk(w) && Holds(w.q, e)
    ensures EntryOk(w, e)
  {
    HeldIsVersion(w.q, e.id);
  }

  lemma ChooseSaves(w: World, v: World, queued: QueuedPayment, rest: seq<QueuedPayment>)
    requires Inv(w) && w.drain.Choosing? && w.drain.rest == [queued] + rest && Eligible(queued)
    requires v == w.(q := Issue(w.q, Begun(queued)), drain := Saving(queued, rest))
    ensures Inv(v)
  {
    RestOf(w.drain.rest);
    assert w.drain.rest[1..] == rest && queued in w.drain.rest;
    HeldIsOk(w, queued);
    hide Put, Tidy, EntriesOk, Distinct, NoDuplicates, Lookup;
    SaveEntriesOk(w, v, Begun(queued));
    SaveAttemptsOk(w, v, Begun(queued));
    SaveRestOk(w, v, Begun(queued));
    SaveBooks(w, v);
    SaveHolds(w.q, Begun(queued), queued);
  }

  lemma ChoosePasses(w: World, v: World, rest: seq<QueuedPayment>)
    requires Inv(w) && w.drain.Choosing? && v == w.(drain := if rest == [] then Idle else Choosing(rest[1..]))
    requires rest == w.drain.rest
    ensures Inv(v)
  {
    if rest != [] {
      RestOf(rest);
    }
    EntriesStay(w, v);
    hide Tidy, EntriesOk, Distinct, NoDuplicates, Holds, Lookup;
  }

  lemma ChooseKeeps(limits: Limits, w: World, s: Step)
    requires Inv(w) && s.Choose? && Enabled(w, s)
    ensures Inv(After(limits, w, s))
  {
    hide Inv, Issue;
    var v, rest := After(limits, w, s), w.drain.rest;
    if rest != [] && Eligible(rest[0]) {
      assert rest == [rest[0]] + rest[1..];
      ChooseSaves(w, v, rest[0], rest[1..]);
    } else {
      ChoosePasses(w, v, rest);
    }
  }

  lemma NewAcceptance(ids: seq<PaymentId>, id: PaymentId)
    requires NoDuplicates(ids) && id !in ids
    ensures NoDuplicates(ids + [id])
  {
  }

  lemma StoreBooks(limits: Limits, w: World, s: Step)
    requires Books(w) && s.Store? && Enabled(w, s)
    ensures Books(After(limits, w, s))
  {
    var v, e := After(limits, w, s), w.q.pending[s.k];
    if Lookup(w.q.stored, e.id).None? {
      NewAcceptance(w.acceptances, e.id);
    }
    hide NoDuplicates, Put, Lookup;
    forall id
      ensures id in v.acceptances <==> Lookup(v.q.stored, id).Some?
    {
      LookupPut(w.q.stored, e, id);
    }
  }

  lemma StoreKeeps(limits: Limits, w: World, s: Step)
    requires Inv(w) && s.Store? && Enabled(w, s)
    ensures Inv(After(limits, w, s))
  {
    StoreBooks(limits, w, s);
    StoreTidy(w.q, s.k);
    hide Tidy, Version, OldestOfItsKey, Put, Lookup, EntriesOk, Distinct, Books;
    EntriesStay(w, After(limits, w, s));
  }

  /** Before a payment is sent, the store has it as submitting. */
  lemma SubmittingIsStored(w: World)
    requires Inv(w) && w.drain.Saving? && IsStored(w.q, w.drain.queued.id)
    ensures Lookup(w.q.stored, w.drain.queued.id) == Some(Begun(w.drain.queued))
    ensures forall x :: Version(w.q, x) && x.id == w.drain.queued.id ==> x == Begun(w.drain.queued)
  {
    hide PutAll, EntriesOk, AttemptsOk, Books, RestOk, Known, FinalIsLast;
    StoredIsHeld(w.q, w.drain.queued.id);
    forall x | Version(w.q, x) && x.id == w.drain.queued.id
      ensures x == Begun(w.drain.queued)
    {
      assert x in w.q.stored;
      LookupFinds(w.q.stored, x);
    }
  }

  lemma SentEntry(w: World, v: World, x: QueuedPayment)
    requires Inv(w) && w.drain.Saving? && IsStored(w.q, w.drain.queued.id) && Version(w.q, x)
    requires v == w.(drain := Sending(w.drain.queued, w.drain.rest))
    ensures EntryOk(v, x)
  {
    SubmittingIsStored(w);
    assert EntryOk(w, x);
    hide Tidy, EntriesOk, IsStored, Lookup, Distinct, NoDuplicates, Version;
  }

  lemma SendKeeps(limits: Limits, w: World, s: Step)
    requires Inv(w) && s.Send? && Enabled(w, s)
    ensures Inv(After(limits, w, s))
  {
    SubmittingIsStored(w);
    var v := After(limits, w, s);
    forall x | Version(v.q, x)
      ensures EntryOk(v, x)
    {
      SentEntry(w, v, x);
    }
    hide Tidy, IsStored, Lookup, Distinct, NoDuplicates, Version, EntryOk;
  }

  /** While an attempt is under way no version of its entry is eligible or final. */
  lemma InFlightIsSubmitting(w: World, x: QueuedPayment)
    requires Inv(w) && Version(w.q, x) && InFlight(w, x.id)
    ensures x.state == Submitting || (x.id in w.unreported && x.state == Voided)
  {
    assert EntryOk(w, x) && IsKnown(w.q, x);
  }

  lemma LandedEntry(limits: Limits, w: World, s: Step, x: QueuedPayment)
    requires Inv(w) && s.Land? && Enabled(w, s) && Version(w.q, x)
    ensures EntryOk(After(limits, w, s), x)
  {
    assert EntryOk(w, x);
    if x.id == s.id {
      InFlightIsSubmitting(w, x);
    }
    hide Inv, Version;
  }

  lemma LandKeeps(limits: Limits, w: World, s: Step)
    requires Inv(w) && s.Land? && Enabled(w, s)
    ensures Inv(After(limits, w, s))
  {
    hide Tidy, Version, Lookup, Distinct, NoDuplicates, EntryOk, EntriesOk;
    var v := After(limits, w, s);
    assert EntriesOk(v) by {
      AllLanded(limits, w, s);
    }
    hide Enabled;
  }

  lemma AllLanded(limits: Limits, w: World, s: Step)
    requires Inv(w) && s.Land? && Enabled(w, s)
    ensures EntriesOk(After(limits, w, s))
  {
    hide Inv, EntryOk, Enabled;
    forall x | Version(After(limits, w, s).q, x)
      ensures EntryOk(After(limits, w, s), x)
    {
      assert After(limits, w, s).q == w.q;
      LandedEntry(limits, w, s, x);
    }
  }

  /** What a reported outcome makes of the entry is what the chain made of the payment. */
  lemma EndedIsOk(w: World, v: World, outcome: SubmitOutcome)
    requires Inv(w) && w.drain.Sending? && !v.drain.Sending?
    requires outcome.SettledAs? <==> w.chain(w.drain.queued.id) == LandedOk
    requires v.chain == w.chain && v.unreported == w.unreported
    ensures EntryOk(v, Ended(w.drain.queued, outcome)) && Supersedes(w.q, Ended(w.drain.queued, outcome))
  {
    hide FinalIsLast, Books, RestOk, AttemptsOk, Known, PutAll;
    HeldIsOk(w, Begun(w.drain.queued));
  }

  lemma ReportKeeps(w: World, v: World, outcome: SubmitOutcome)
    requires Inv(w) && w.drain.Sending?
    requires outcome.SettledAs? <==> w.chain(w.drain.queued.id) == LandedOk
    requires v == w.(q := Issue(w.q, Ended(w.drain.queued, outcome)),
                     drain := Ending(w.drain.queued, outcome, w.drain.rest), history := w.history + [outcome])
    ensures Inv(v)
  {
    EndedIsOk(w, v, outcome);
    hide Tidy, EntriesOk, EntryOk, Supersedes, Put, Lookup, Distinct, NoDuplicates;
    SaveEntriesOk(w, v, Ended(w.drain.queued, outcome));
    SaveAttemptsOk(w, v, Ended(w.drain.queued, outcome));
    SaveRestOk(w, v, Ended(w.drain.queued, outcome));
    SaveBooks(w, v);
  }

  lemma ThrownEntry(w: World, v: World, x: QueuedPayment)
    requires Inv(w) && w.drain.Sending? && Version(w.q, x)
    requires v == w.(drain := Idle, unreported := w.unreported + {w.drain.queued.id})
    ensures EntryOk(v, x)
  {
    assert EntryOk(w, x);
    if x.id == w.drain.queued.id {
      InFlightIsSubmitting(w, x);
    }
    hide Inv, Version;
  }

  /** An attempt that throws: its entry stays as it is, in flight for good. */
  lemma ThrowKeeps(w: World, v: World)
    requires Inv(w) && w.drain.Sending?
    requires v == w.(drain := Idle, unreported := w.unreported + {w.drain.queued.id})
    ensures Inv(v)
  {
    forall x | Version(v.q, x)
      ensures EntryOk(v, x)
    {
      ThrownEntry(w, v, x);
    }
    hide Tidy, Version, Lookup, Distinct, NoDuplicates, EntryOk;
  }

  lemma ReturnKeeps(limits: Limits, w: World, s: Step)
    requires Inv(w) && s.Return? && Enabled(w, s)
    ensures Inv(After(limits, w, s))
  {
    var v, queued := After(limits, w, s), w.drain.queued;
    var r := Submit.Submit(queued.payment, s.key, s.signature, s.net);
    if r.Ok? {
      OutcomeIsWhatTheChainDid(queued.payment, s.key, s.signature, s.net, w.chain(queued.id));
      hide Submit.Submit, Truthful, Inv, Issue;
      ReportKeeps(w, v, r.value);
    } else {
      hide Submit.Submit, Truthful, Inv;
      ThrowKeeps(w, v);
    }
  }

  lemma CountKeeps(limits: Limits, w: World, s: Step)
    requires Inv(w) && (s.CountIt? || s.StoreCounter?) && Enabled(w, s)
    ensures Inv(After(limits, w, s))
  {
    var v := After(limits, w, s);
    EntriesStay(w, v);
    TidyElsewhere(w.q, v.q);
    hide Tidy, EntriesOk, Lookup, Distinct, NoDuplicates, IsStored;
  }

  lemma TidyElsewhere(q: QueueState, v: QueueState)
    requires Tidy(q) && v.payments == q.payments && v.stored == q.stored && v.pending == q.pending
    ensures Tidy(v)
  {
    hide Lookup, Distinct, PutAll;
    forall e | Version(v, e)
      ensures IsKnown(v, e)
    {
      assert Version(q, e);
      KnownElsewhere(q, v, e);
    }
  }

  lemma VoidedIsOk(w: World, v: World, x: QueuedPayment)
    requires Inv(w) && w.drain.Idle? && Voids(w.q, x) && v.chain == w.chain && v.unreported == w.unreported
    requires v.drain.Idle?
    ensures EntryOk(v, x)
  {
    var held := Lookup(w.q.payments, x.id).value;
    HeldIsOk(w, held);
  }

  lemma VoidKeeps(w: World, v: World, x: QueuedPayment)
    requires Inv(w) && w.drain.Idle? && Voids(w.q, x) && v == w.(q := Issue(w.q, x))
    ensures Inv(v)
  {
    VoidedIsOk(w, v, x);
    VoidsSupersede(w.q, x);
    assert x.state == Voided;
    hide Tidy, EntriesOk, EntryOk, Supersedes, Put, Lookup, Distinct, NoDuplicates, Voids;
    SaveEntriesOk(w, v, x);
    SaveAttemptsOk(w, v, x);
    SaveRestOk(w, v, x);
    SaveBooks(w, v);
  }

  lemma {:induction false} VoidingsKeep(w: World, entries: seq<QueuedPayment>)
    requires Inv(w) && w.drain.Idle? && Distinct(entries) && forall x :: x in entries ==> Voids(w.q, x)
    ensures Inv(w.(q := IssueAll(w.q, entries)))
    decreases |entries|
  {
    hide Inv, Voids, Issue, Distinct;
    if entries == [] {
      assert w.(q := w.q) == w;
    } else {
      var v := w.(q := Issue(w.q, entries[0]));
      assert entries[0] in entries;
      VoidKeeps(w, v, entries[0]);
      RestVoids(w.q, entries);
      VoidingsKeep(v, entries[1..]);
      assert v.(q := IssueAll(v.q, entries[1..])) == w.(q := IssueAll(w.q, entries));
    }
  }

  lemma ExpireKeeps(limits: Limits, w: World, s: Step)
    requires Inv(w) && s.ExpireAt? && Enabled(w, s)
    ensures Inv(After(limits, w, s))
  {
    assert Distinct(w.q.payments);
    hide Inv, Voids, Issue, Voidings, Ordered, Distinct, Overdue;
    ExpireSaves(limits, w.q, s.now);
    VoidingsKeep(w, Expire(limits, w.q, s.now).1);
  }

  /** An entry as the store has it, once everything else is forgotten. */
  lemma StoredIsOk(w: World, v: World, x: QueuedPayment)
    requires Inv(w) && x in w.q.stored && v.chain == w.chain && !v.drain.Sending?
    requires v.unreported == w.unreported + LeftSubmitting(w.q.stored)
    ensures EntryOk(v, x)
  {
    assert EntryOk(w, x);
    if x.id in LeftSubmitting(w.q.stored) {
      var e :| e in w.q.stored && e.state == Submitting && e.id == x.id;
      assert e == x;
    }
  }

  lemma ReloadBooks(w: World, v: World)
    requires Books(w) && v.q.stored == w.q.stored && v.acceptances == w.acceptances && v.chain == w.chain
    requires v.unreported == w.unreported + LeftSubmitting(w.q.stored) && v.drain.Idle?
    ensures Books(v)
  {
    hide NoDuplicates, Lookup;
    forall id | id in LeftSubmitting(w.q.stored)
      ensures id in w.acceptances
    {
      var e :| e in w.q.stored && e.id == id;
      assert Lookup(w.q.stored, id).Some?;
    }
  }

  lemma RestartKeeps(limits: Limits, w: World, s: Step)
    requires Inv(w) && s.Restart? && Enabled(w, s)
    ensures Inv(After(limits, w, s))
  {
    var v := After(limits, w, s);
    LoadRestores(w.q.stored, w.q.storedMeta, s.keys);
    ReloadBooks(w, v);
    hide Load, Books;
    forall x | Version(v.q, x)
      ensures EntryOk(v, x)
    {
      StoredIsOk(w, v, x);
    }
    hide Tidy, EntryOk, Distinct;
    assert Rest(v.drain) == [];
  }

  lemma StepKeepsInv(limits: Limits, w: World, s: Step)
    requires Inv(w) && Enabled(w, s)
    ensures Inv(After(limits, w, s))
  {
    hide Inv, Enabled, After;
    match s
    case AcceptPayment(_, _, _, _) => AcceptKeeps(limits, w, s);
    case StartDrain => StartKeeps(limits, w, s);
    case Choose => ChooseKeeps(limits, w, s);
    case Store(_) => StoreKeeps(limits, w, s);
    case Send => SendKeeps(limits, w, s);
    case Land(_, _) => LandKeeps(limits, w, s);
    case Return(_, _, _) => ReturnKeeps(limits, w, s);
    case CountIt => CountKeeps(limits, w, s);
    case StoreCounter => CountKeeps(limits, w, s);
    case ExpireAt(_) => ExpireKeeps(limits, w, s);
    case Restart(_) => RestartKeeps(limits, w, s);
  }

  lemma RunStep(limits: Limits, worlds: seq<World>, steps: seq<Step>, k: nat)
    requires IsRun(limits, worlds, steps) && k < |steps|
    ensures |worlds| == |steps| + 1 && Enabled(worlds[k], steps[k])
            && worlds[k + 1] == After(limits, worlds[k], steps[k])
  {
  }

  lemma StartIsSound()
    ensures Inv(START)
  {
  }

  lemma {:induction false} RunsKeepInv(limits: Limits, worlds: seq<World>, steps: seq<Step>, k: nat)
    requires IsRun(limits, worlds, steps) && k <= |steps|
    ensures Inv(worlds[k])
    decreases k
  {
    hide Inv, Enabled, After;
    if k == 0 {
      StartIsSound();
    } else {
      RunsKeepInv(limits, worlds, steps, k - 1);
      RunStep(limits, worlds, steps, k - 1);
      StepKeepsInv(limits, worlds[k - 1], steps[k - 1]);
    }
  }
}
