/** The merchant's queue: its entries, what it accepts, and what one attempt does to an entry. */
module QueueModel {
  import opened Common
  import opened Canonical
  import opened Sign
  import opened NonceCheck
  import opened Submit

  datatype Tier = T0 | T1 | T2

  datatype EntryState = Queued | Submitting | Settled | Failed | Voided

  /** The dedupe key: the slot and its value on the nonce path, the message on the fresh one. */
  datatype PaymentId = NonceId(payer: Key, index: int, value: Key) | FreshId(payer: Key, message: Message)

  datatype QueuedPayment = QueuedPayment(
    id: PaymentId,
    payment: VerifiedPayment,
    tier: Tier,
    acceptedAt: int,
    amount: int,
    attempts: nat,
    lastError: Option<ErrorCode>,
    state: EntryState)

  /** `collate` is where an id's text sorts. */
  datatype Limits = Limits(
    receiptCap: Tier -> int,
    queueExposureCap: int,
    maxConsecutiveFailedSends: int,
    sendWindowMs: int,
    collate: PaymentId -> int)

  /**
    What the queue keeps in memory, in insertion order; what its store holds, one entry to a key; and the
    writes issued to the store that it has not stored yet, in the order they were issued.
   */
  datatype QueueState = QueueState(
    payments: seq<QueuedPayment>,
    consecutiveFailedSends: nat,
    stored: seq<QueuedPayment>,
    storedMeta: Option<nat>,
    pending: seq<QueuedPayment>)

  function IdOf(payment: VerifiedPayment): (id: PaymentId) {
    var input := payment.input;
    match input.nonceRef
    case Some(nonceRef) => NonceId(input.payer, nonceRef.index, nonceRef.value)
    case None => FreshId(input.payer, payment.message)
  }

  predicate Distinct(payments: seq<QueuedPayment>) {
    forall j, k :: 0 <= j < k < |payments| ==> payments[j].id != payments[k].id
  }

  function Lookup(payments: seq<QueuedPayment>, id: PaymentId): (r: Option<QueuedPayment>)
    ensures r.Some? ==> r.value in payments && r.value.id == id
    ensures r.None? ==> forall e :: e in payments ==> e.id != id
  {
    if payments == [] then None
    else if payments[0].id == id then Some(payments[0])
    else Lookup(payments[1..], id)
  }

  /** `Map.set`: in place when the key is there, at the end when it is new. */
  function Put(payments: seq<QueuedPayment>, e: QueuedPayment): (r: seq<QueuedPayment>) {
    if payments == [] then [e]
    else if payments[0].id == e.id then [e] + payments[1..]
    else [payments[0]] + Put(payments[1..], e)
  }

  function Total(payments: seq<QueuedPayment>, weight: QueuedPayment -> int): int {
    if payments == [] then 0 else weight(payments[0]) + Total(payments[1..], weight)
  }

  /** What the entry under a key weighs, nothing if there is none. */
  function WeightAt(payments: seq<QueuedPayment>, id: PaymentId, weight: QueuedPayment -> int): int {
    match Lookup(payments, id) case Some(e) => weight(e) case None => 0
  }

  // --- oldest first --------------------------------------------------------------------------------

  predicate Precedes(limits: Limits, a: QueuedPayment, b: QueuedPayment) {
    a.acceptedAt < b.acceptedAt || (a.acceptedAt == b.acceptedAt && limits.collate(a.id) <= limits.collate(b.id))
  }

  function Insert(limits: Limits, sorted: seq<QueuedPayment>, e: QueuedPayment): seq<QueuedPayment> {
    if sorted == [] || Precedes(limits, sorted[|sorted| - 1], e) then sorted + [e]
    else Insert(limits, sorted[..|sorted| - 1], e) + [sorted[|sorted| - 1]]
  }

  /** The stable sort of `ordered`. */
  function Ordered(limits: Limits, payments: seq<QueuedPayment>): seq<QueuedPayment> {
    if payments == [] then [] else Insert(limits, Ordered(limits, payments[..|payments| - 1]), payments[|payments| - 1])
  }

  // --- exposure ------------------------------------------------------------------------------------

  predicate Unsettled(state: EntryState) {
    state in {Queued, Submitting, Failed}
  }

  /** What an entry adds to the exposure: T0 hands over only after settlement. */
  function Exposed(e: QueuedPayment): int {
    if e.tier != T0 && Unsettled(e.state) then e.amount else 0
  }

  function Exposure(limits: Limits, payments: seq<QueuedPayment>): int {
    Total(Ordered(limits, payments), Exposed)
  }

  // --- writing -------------------------------------------------------------------------------------

  function PutAll(payments: seq<QueuedPayment>, entries: seq<QueuedPayment>): seq<QueuedPayment> {
    if entries == [] then payments else Put(PutAll(payments, entries[..|entries| - 1]), entries[|entries| - 1])
  }

  /** `save` up to its await: memory has the entry, the store does not yet. */
  function Issue(q: QueueState, e: QueuedPayment): QueueState {
    q.(payments := Put(q.payments, e), pending := q.pending + [e])
  }

  /** The store stores one of the writes it was given. */
  function StoreAt(q: QueueState, k: nat): QueueState
    requires k < |q.pending|
  {
    q.(stored := Put(q.stored, q.pending[k]), pending := q.pending[..k] + q.pending[k + 1..])
  }

  /** A store that keeps writes in order has stored them all once it has stored the last. */
  function Flush(q: QueueState): QueueState {
    q.(stored := PutAll(q.stored, q.pending), pending := [])
  }

  /** `save`, awaited. */
  function Save(q: QueueState, e: QueuedPayment): QueueState {
    Flush(Issue(q, e))
  }

  // --- acceptance ----------------------------------------------------------------------------------

  function Refusal(limits: Limits, q: QueueState, payment: VerifiedPayment, tier: Tier, amount: int,
                   precheck: Option<NonceVerdict>): Option<ErrorCode> {
    if Lookup(q.payments, IdOf(payment)).Some? then Some(WIRE_DUPLICATE_AUTH)
    else if tier == T1 && payment.input.nonceRef.Some?
      && !(precheck.Some? && precheck.value.Passes?) then Some(LIMIT_PRECHECK_REQUIRED)
    else if q.consecutiveFailedSends >= limits.maxConsecutiveFailedSends then Some(LIMIT_FAILED_SENDS)
    else if amount > limits.receiptCap(tier) then Some(LIMIT_RECEIPT_CAP)
    else if tier != T0 && Exposure(limits, q.payments) + amount > limits.queueExposureCap
      then Some(LIMIT_QUEUE_EXPOSURE)
    else None
  }

  function Accepted(payment: VerifiedPayment, tier: Tier, amount: int, now: int): QueuedPayment {
    QueuedPayment(IdOf(payment), payment, tier, now, amount, 0, None, Queued)
  }

  function Accept(limits: Limits, q: QueueState, payment: VerifiedPayment, tier: Tier, amount: int,
                  precheck: Option<NonceVerdict>, now: int)
    : (r: (QueueState, Result<QueuedPayment>))
  {
    match Refusal(limits, q, payment, tier, amount, precheck)
    case Some(code) => (q, Err(code))
    case None => (Save(q, Accepted(payment, tier, amount, now)), Ok(Accepted(payment, tier, amount, now)))
  }

  // --- one attempt of a drain, piece by piece ------------------------------------------------------

  predicate Eligible(e: QueuedPayment) {
    e.state == Queued || e.state == Failed
  }

  function Begun(queued: QueuedPayment): QueuedPayment {
    queued.(state := Submitting)
  }

  function BeginAttempt(q: QueueState, queued: QueuedPayment): QueueState {
    Save(q, Begun(queued))
  }

  function Ended(queued: QueuedPayment, outcome: SubmitOutcome): QueuedPayment {
    match outcome
    case SettledAs(_, _) => queued.(state := Settled, attempts := queued.attempts + 1)
    case FailedAs(code, _) => queued.(state := Failed, attempts := queued.attempts + 1, lastError := Some(code))
  }

  function EndAttempt(q: QueueState, queued: QueuedPayment, outcome: SubmitOutcome): QueueState {
    Save(q, Ended(queued, outcome))
  }

  /** Failures that mean the merchant should stop accepting offline. */
  predicate CountsAsFailedSend(code: ErrorCode) {
    code == SUBMIT_EXECUTION_FAILED || code == SUBMIT_NONCE_ABSENT
  }

  function Count(counter: nat, outcome: SubmitOutcome): nat {
    match outcome
    case SettledAs(_, _) => 0
    case FailedAs(code, _) => if CountsAsFailedSend(code) then counter + 1 else counter
  }

  /** Counting in memory, then `saveMeta`, awaited. */
  function CountInMemory(q: QueueState, outcome: SubmitOutcome): QueueState {
    q.(consecutiveFailedSends := Count(q.consecutiveFailedSends, outcome))
  }

  function SaveMeta(q: QueueState): QueueState {
    q.(storedMeta := Some(q.consecutiveFailedSends))
  }

  function CountOutcome(q: QueueState, outcome: SubmitOutcome): QueueState {
    SaveMeta(CountInMemory(q, outcome))
  }

  /** The rest of a drain with nothing in between: the new state, the outcomes, and what it threw. */
  function DrainFrom(q: QueueState, snapshot: seq<QueuedPayment>, key: Key, sends: PaymentId -> (seq<Byte>, Network))
    : (r: (QueueState, Result<seq<SubmitOutcome>>))
    decreases |snapshot|
  {
    if snapshot == [] then (q, Ok([]))
    else if !Eligible(snapshot[0]) then DrainFrom(q, snapshot[1..], key, sends)
    else
      var queued, begun := snapshot[0], BeginAttempt(q, snapshot[0]);
      match Submit.Submit(queued.payment, key, sends(queued.id).0, sends(queued.id).1)
      case Err(code) => (begun, Err(code))
      case Ok(outcome) =>
        var rest := DrainFrom(CountOutcome(EndAttempt(begun, queued, outcome), outcome), snapshot[1..], key, sends);
        (rest.0, match rest.1 case Ok(outcomes) => Ok([outcome] + outcomes) case Err(code) => Err(code))
  }

  // --- expiry and loading --------------------------------------------------------------------------

  predicate Overdue(limits: Limits, e: QueuedPayment, now: int) {
    e.state != Settled && e.state != Voided && now - e.acceptedAt >= limits.sendWindowMs
  }

  function VoidedEntry(e: QueuedPayment): QueuedPayment {
    e.(state := Voided, lastError := Some(LIMIT_SEND_WINDOW_EXPIRED))
  }

  /** The overdue entries of a list, as `expire` saves and returns them. */
  function Voidings(limits: Limits, payments: seq<QueuedPayment>, now: int): seq<QueuedPayment> {
    if payments == [] then []
    else
      (if Overdue(limits, payments[0], now) then [VoidedEntry(payments[0])] else [])
      + Voidings(limits, payments[1..], now)
  }

  function IssueAll(q: QueueState, entries: seq<QueuedPayment>): QueueState
    decreases |entries|
  {
    if entries == [] then q else IssueAll(Issue(q, entries[0]), entries[1..])
  }

  /** `expire` awaits none of its writes. */
  function Expire(limits: Limits, q: QueueState, now: int): (QueueState, seq<QueuedPayment>) {
    var expired := Voidings(limits, Ordered(limits, q.payments), now);
    (IssueAll(q, expired), expired)
  }

  /** What `load` puts in memory, reading the store's keys in the order it lists them. */
  function Hydrated(payments: seq<QueuedPayment>, stored: seq<QueuedPayment>, keys: seq<PaymentId>): seq<QueuedPayment>
    decreases |keys|
  {
    if keys == [] then payments
    else
      match Lookup(stored, keys[0])
      case Some(e) => Hydrated(Put(payments, e), stored, keys[1..])
      case None => Hydrated(payments, stored, keys[1..])
  }

  function MetaCounter(storedMeta: Option<nat>): nat {
    match storedMeta case Some(counter) => counter case None => 0
  }

  /** A read comes after the writes issued before it. */
  function Load(q: QueueState, keys: seq<PaymentId>): QueueState {
    var flushed := Flush(q);
    flushed.(payments := Hydrated(q.payments, flushed.stored, keys),
    consecutiveFailedSends := MetaCounter(q.storedMeta))
  }

  // --- the map ---------------------------------------------------------------------------------------

  lemma {:induction false} PutEntries(payments: seq<QueuedPayment>, e: QueuedPayment)
    requires Distinct(payments)
    ensures Distinct(Put(payments, e))
    ensures forall x :: x in Put(payments, e) <==> x == e || (x in payments && x.id != e.id)
  {
    if payments != [] && payments[0].id != e.id {
      PutEntries(payments[1..], e);
      var tail := Put(payments[1..], e);
      forall x | x in tail
        ensures x.id != payments[0].id
      {
        if x != e {
          assert x in payments[1..];
        }
      }
      assert forall x :: x in payments <==> x == payments[0] || x in payments[1..];
    }
  }

  lemma {:induction false} PutTotal(payments: seq<QueuedPayment>, e: QueuedPayment, weight: QueuedPayment -> int)
    ensures Total(Put(payments, e), weight) ==
            Total(payments, weight) + weight(e) - WeightAt(payments, e.id, weight)
  {
    if payments != [] && payments[0].id != e.id {
      PutTotal(payments[1..], e, weight);
      assert Put(payments, e)[1..] == Put(payments[1..], e);
    }
  }

  /** What a key finds after an entry is put. */
  lemma {:induction false} LookupPut(payments: seq<QueuedPayment>, e: QueuedPayment, id: PaymentId)
    ensures Lookup(Put(payments, e), id) == if id == e.id then Some(e) else Lookup(payments, id)
  {
    if payments != [] && payments[0].id != e.id {
      LookupPut(payments[1..], e, id);
    }
  }

  /** A key finds the one entry that has it. */
  lemma LookupFinds(payments: seq<QueuedPayment>, e: QueuedPayment)
    requires Distinct(payments) && e in payments
    ensures Lookup(payments, e.id) == Some(e)
  {
  }

  // --- the order -------------------------------------------------------------------------------------

  predicate Sorted(limits: Limits, payments: seq<QueuedPayment>) {
    forall j, k :: 0 <= j < k < |payments| ==> Precedes(limits, payments[j], payments[k])
  }

  /** Where an entry goes: after everything that does not come after it. */
  lemma {:induction false} InsertShape(limits: Limits, sorted: seq<QueuedPayment>, e: QueuedPayment) returns (k: nat)
    ensures k <= |sorted| && Insert(limits, sorted, e) == sorted[..k] + [e] + sorted[k..]
    ensures k > 0 ==> Precedes(limits, sorted[k - 1], e)
    ensures forall j :: k <= j < |sorted| ==> !Precedes(limits, sorted[j], e)
  {
    hide Precedes;
    k := |sorted|;
    if sorted != [] && !Precedes(limits, sorted[|sorted| - 1], e) {
      var head, last := sorted[..|sorted| - 1], sorted[|sorted| - 1];
      k := InsertShape(limits, head, e);
      Regroup(head, k, e, last);
      assert sorted == head + [last];
      assert forall j :: 0 <= j < |head| ==> head[j] == sorted[j];
    } else {
      assert sorted[..k] == sorted && sorted[k..] == [];
    }
    hide Insert;
  }

  lemma Regroup(head: seq<QueuedPayment>, k: nat, e: QueuedPayment, last: QueuedPayment)
    requires k <= |head|
    ensures head[..k] + [e] + head[k..] + [last] == (head + [last])[..k] + [e] + (head + [last])[k..]
  {
  }

  lemma InsertSorts(limits: Limits, sorted: seq<QueuedPayment>, e: QueuedPayment)
    requires Sorted(limits, sorted)
    ensures Sorted(limits, Insert(limits, sorted, e))
            && multiset(Insert(limits, sorted, e)) == multiset(sorted) + multiset{e}
  {
    var k := InsertShape(limits, sorted, e);
    hide Insert, Sorted;
    StaysSorted(limits, sorted, k, e);
    assert sorted == sorted[..k] + sorted[k..];
  }

  lemma StaysSorted(limits: Limits, sorted: seq<QueuedPayment>, k: nat, e: QueuedPayment)
    requires Sorted(limits, sorted) && k <= |sorted|
    requires k > 0 ==> Precedes(limits, sorted[k - 1], e)
    requires forall j :: k <= j < |sorted| ==> !Precedes(limits, sorted[j], e)
    ensures Sorted(limits, sorted[..k] + [e] + sorted[k..])
  {
  }

  /** `ordered` lists the same payments, oldest first. */
  lemma {:induction false} OrderedSorts(limits: Limits, payments: seq<QueuedPayment>)
    ensures Sorted(limits, Ordered(limits, payments)) && multiset(Ordered(limits, payments)) == multiset(payments)
  {
    hide Insert, Sorted;
    if payments == [] {
      NothingIsSorted(limits);
    } else {
      var head, last := payments[..|payments| - 1], payments[|payments| - 1];
      OrderedSorts(limits, head);
      InsertSorts(limits, Ordered(limits, head), last);
      assert payments == head + [last];
    }
  }

  /** The oldest first, and payments accepted at one moment in the order their keys sort. */
  lemma OrderedIsOldestFirst(limits: Limits, payments: seq<QueuedPayment>)
    ensures var ordered := Ordered(limits, payments);
            && multiset(ordered) == multiset(payments)
            && forall j, k :: 0 <= j < k < |ordered| ==>
                                && ordered[j].acceptedAt <= ordered[k].acceptedAt
                                && (ordered[j].acceptedAt == ordered[k].acceptedAt ==>
                                      limits.collate(ordered[j].id) <= limits.collate(ordered[k].id))
  {
    OrderedSorts(limits, payments);
    hide Ordered;
  }

  lemma NothingIsSorted(limits: Limits)
    ensures Sorted(limits, [])
  {
  }

  lemma {:induction false} TotalSplits(a: seq<QueuedPayment>, b: seq<QueuedPayment>, weight: QueuedPayment -> int)
    ensures Total(a + b, weight) == Total(a, weight) + Total(b, weight)
  {
    if a == [] {
      assert a + b == b;
    } else {
      TotalSplits(a[1..], b, weight);
      assert (a + b)[1..] == a[1..] + b;
    }
  }

  lemma TotalWithout(payments: seq<QueuedPayment>, k: nat, weight: QueuedPayment -> int)
    requires k < |payments|
    ensures Total(payments, weight) == weight(payments[k]) + Total(payments[..k] + payments[k + 1..], weight)
  {
    TotalSplits(payments[..k], payments[k..], weight);
    TotalSplits(payments[..k], payments[k + 1..], weight);
    assert payments == payments[..k] + payments[k..] && payments[k..][1..] == payments[k + 1..];
  }

  lemma SameWithout(a: seq<QueuedPayment>, b: seq<QueuedPayment>, k: nat)
    requires multiset(a) == multiset(b) && a != [] && k < |b| && b[k] == a[0]
    ensures multiset(a[1..]) == multiset(b[..k] + b[k + 1..])
  {
    var rest := b[..k] + b[k + 1..];
    assert a == [a[0]] + a[1..];
    assert b == b[..k] + [b[k]] + b[k + 1..];
    assert multiset(b) == multiset(rest) + multiset{b[k]};
    assert multiset(a) == multiset(a[1..]) + multiset{a[0]};
    assert multiset(a) - multiset{a[0]} == multiset(a[1..]);
    assert multiset(b) - multiset{a[0]} == multiset(rest);
  }

  /** A total does not depend on the order. */
  lemma {:induction false} TotalOfPermutation(a: seq<QueuedPayment>, b: seq<QueuedPayment>,
                                              weight: QueuedPayment -> int)
    requires multiset(a) == multiset(b)
    ensures Total(a, weight) == Total(b, weight)
    decreases |a|
  {
    if a == [] {
      assert |multiset(b)| == 0;
    } else {
      assert a[0] in multiset(b);
      var k :| 0 <= k < |b| && b[k] == a[0];
      SameWithout(a, b, k);
      TotalOfPermutation(a[1..], b[..k] + b[k + 1..], weight);
      TotalWithout(b, k, weight);
    }
  }

  lemma ExposureIsTotal(limits: Limits, payments: seq<QueuedPayment>)
    ensures Exposure(limits, payments) == Total(payments, Exposed)
  {
    OrderedSorts(limits, payments);
    TotalOfPermutation(Ordered(limits, payments), payments, Exposed);
  }

  /** Distinct keys make a list of entries a permutation of every other list of the same entries. */
  lemma SameEntries(a: seq<QueuedPayment>, b: seq<QueuedPayment>)
    requires Distinct(a) && Distinct(b) && forall e :: e in a <==> e in b
    ensures multiset(a) == multiset(b)
  {
    OnceEach(a);
    OnceEach(b);
    forall e
      ensures multiset(a)[e] == multiset(b)[e]
    {
      assert e in a <==> e in b;
    }
  }

  lemma {:induction false} OnceEach(payments: seq<QueuedPayment>)
    requires Distinct(payments)
    ensures forall e :: multiset(payments)[e] == if e in payments then 1 else 0
  {
    if payments != [] {
      OnceEach(payments[1..]);
      assert payments == [payments[0]] + payments[1..];
      assert payments[0] !in payments[1..];
    }
  }

  lemma Twice(payments: seq<QueuedPayment>, j: nat, k: nat)
    requires j < k < |payments| && payments[j] == payments[k]
    ensures multiset(payments)[payments[j]] > 1
  {
    assert payments == payments[..k] + payments[k..];
    assert payments[j] in payments[..k] && payments[k] in payments[k..];
  }

  /** And the other way: a permutation has the same entries, still distinct. */
  lemma PermutationEntries(a: seq<QueuedPayment>, b: seq<QueuedPayment>)
    requires Distinct(a) && multiset(a) == multiset(b)
    ensures Distinct(b) && forall e :: e in a <==> e in b
  {
    forall e
      ensures e in a <==> e in b
    {
      assert e in multiset(a) <==> e in multiset(b);
    }
    OnceEach(a);
    forall j, k | 0 <= j < k < |b|
      ensures b[j].id != b[k].id
    {
      assert b[j] in a && b[k] in a;
      if b[j] == b[k] {
        Twice(b, j, k);
        assert false;
      }
    }
  }
}
