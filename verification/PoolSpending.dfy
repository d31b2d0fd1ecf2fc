/** How much a device can sign: bounds over whole runs of pool operations, crashes and reloads. */
module PoolSpending {
  import opened Common
  import opened SpendLog
  import opened PoolModel

  /** What one event signs: the amount of a reservation that was answered. */
  function SignedBy(cfg: Config, d: Device, e: Event): seq<SpendEntry> {
    if e.OnLedger? && e.op.Reserve? && Apply(cfg, d, e).1.Ok? then [SpendEntry(e.op.now, e.op.amount)] else []
  }

  function Run(cfg: Config, d: Device, events: seq<Event>): Device {
    if events == [] then d else Apply(cfg, Run(cfg, d, events[..|events| - 1]), events[|events| - 1]).0
  }

  /** Everything the run ever signed, never pruned. */
  function History(cfg: Config, d: Device, events: seq<Event>): seq<SpendEntry> {
    if events == [] then []
    else
      var before := events[..|events| - 1];
      History(cfg, d, before) + SignedBy(cfg, Run(cfg, d, before), events[|events| - 1])
  }

  predicate IsReserve(e: Event) {
    e.OnLedger? && e.op.Reserve?
  }

  /** The device clock, as the pool reads it, never moves back. */
  ghost predicate ClockMovesForward(events: seq<Event>) {
    forall i, j :: 0 <= i < j < |events| && IsReserve(events[i]) && IsReserve(events[j])
      ==> events[i].op.now <= events[j].op.now
  }

  predicate Sane(cfg: Config) {
    cfg.spendLimit >= 0 && cfg.spendLimitWindowMs > 0
  }

  // --- what each operation does to the log ---------------------------------------------------------

  /** Only a reservation that passes touches the log: every other ledger written keeps the log it found. */
  lemma OnlyReservationsTouchTheLog(cfg: Config, d: Device, e: Event)
    requires !(IsReserve(e) && Loaded(d).Some? && Operate(cfg, Loaded(d).value, e.op).Ok?)
    ensures var next := Apply(cfg, d, e).0;
            && (next.current.Some? ==> LogOf(next.current) == LogOf(Loaded(d)))
            && (LogOf(next.stored) == LogOf(d.stored) || (next.stored.Some? && LogOf(next.stored) == LogOf(Loaded(d))))
            && (d.stored.Some? ==> next.stored.Some?)
            && (next.current.None? ==> e.Crash? || d.current.None?)
  {
    hide Find, RefreshSlots, ReconciledSlots, Probe, With, Refund;
  }

  /**
    Nothing gives allowance back but time: whatever `now` is asked about, every operation other than a
    reservation leaves the allowance as it was.
   */
  lemma AllowanceIsKept(cfg: Config, d: Device, e: Event, now: int)
    requires !IsReserve(e) && !e.Crash?
    ensures AllowanceOf(LogOf(Loaded(Apply(cfg, d, e).0)), now, cfg.spendLimit, cfg.spendLimitWindowMs)
            == AllowanceOf(LogOf(Loaded(d)), now, cfg.spendLimit, cfg.spendLimitWindowMs)
  {
    OnlyReservationsTouchTheLog(cfg, d, e);
    hide Apply, AllowanceOf;
  }

  /** The ledger a passing reservation writes, and where it lands. */
  lemma ReservationLogs(cfg: Config, d: Device, e: Event)
    requires IsReserve(e) && Loaded(d).Some? && Operate(cfg, Loaded(d).value, e.op).Ok?
    ensures var (next, reply), log := Apply(cfg, d, e), Counted(LogOf(Loaded(d)), e.op.now, cfg.spendLimitWindowMs)
            + [SpendEntry(e.op.now, e.op.amount)];
            && next.current.Some? && LogOf(next.current) == log
            && (LogOf(next.stored) == log || (next.stored == d.stored && reply.Err?))
            && (next.stored.None? ==> d.stored.None? && reply.Err?)
            && e.op.amount > 0
            && Total(Counted(LogOf(Loaded(d)), e.op.now, cfg.spendLimitWindowMs)) + e.op.amount <= cfg.spendLimit
  {
  }

  // --- any clock -----------------------------------------------------------------------------------

  predicate SmallLog(log: seq<SpendEntry>, limit: int) {
    Positive(log) && Total(log) <= limit
  }

  predicate SmallLogs(cfg: Config, d: Device) {
    SmallLog(LogOf(d.current), cfg.spendLimit) && SmallLog(LogOf(d.stored), cfg.spendLimit)
  }

  /** Whatever the clock does, a stored log never totals more than the limit. */
  lemma {:induction false} LogsStaySmall(cfg: Config, d: Device, events: seq<Event>)
    requires SmallLogs(cfg, d) && cfg.spendLimit >= 0
    ensures SmallLogs(cfg, Run(cfg, d, events))
  {
    if events != [] {
      var before, e := events[..|events| - 1], events[|events| - 1];
      LogsStaySmall(cfg, d, before);
      LogStaysSmall(cfg, Run(cfg, d, before), e);
    }
  }

  lemma LogStaysSmall(cfg: Config, d: Device, e: Event)
    requires SmallLogs(cfg, d) && cfg.spendLimit >= 0
    ensures SmallLogs(cfg, Apply(cfg, d, e).0)
  {
    if IsReserve(e) && Loaded(d).Some? && Operate(cfg, Loaded(d).value, e.op).Ok? {
      ReservationLogs(cfg, d, e);
      var counted, entry := Counted(LogOf(Loaded(d)), e.op.now, cfg.spendLimitWindowMs),
        SpendEntry(e.op.now, e.op.amount);
      CountedIsPart(LogOf(Loaded(d)), e.op.now, cfg.spendLimitWindowMs);
      TotalAppend(counted, [entry]);
      assert Total([entry]) == entry.amount;
      assert Positive(counted + [entry]);
    } else {
      OnlyReservationsTouchTheLog(cfg, d, e);
    }
    hide Apply, Operate, Counted, Total;
  }

  // --- a clock under which nothing comes back ------------------------------------------------------

  /** When the run made its reservations, by the device clock. */
  function Times(events: seq<Event>): seq<int> {
    if events == [] then []
    else
      var last := events[|events| - 1];
      Times(events[..|events| - 1]) + if IsReserve(last) then [last.op.now] else []
  }

  /** Whatever left the window at one of `times` is outside it at `now`. */
  ghost predicate StaysDropped(times: seq<int>, now: int, window: int) {
    forall i, j :: 0 <= i < j < |times| && times[i] <= times[j] - window ==> times[i] <= now - window
  }

  /** No entry dropped at one reservation would count again at a later one. */
  ghost predicate NothingComesBack(times: seq<int>, window: int) {
    forall k :: 0 <= k < |times| ==> StaysDropped(times[..k], times[k], window)
  }

  lemma StaysDroppedLater(times: seq<int>, later: int, now: int, window: int)
    requires StaysDropped(times + [later], now, window)
    ensures StaysDropped(times, now, window)
    ensures forall i :: 0 <= i < |times| && times[i] <= later - window ==> times[i] <= now - window
  {
    var all := times + [later];
    assert forall i :: 0 <= i < |times| ==> all[i] == times[i];
    forall i | 0 <= i < |times| && times[i] <= later - window
      ensures times[i] <= now - window
    {
      assert all[i] <= all[|times|] - window;
    }
  }

  lemma NothingCameBack(times: seq<int>, more: seq<int>, window: int)
    requires NothingComesBack(times + more, window)
    ensures NothingComesBack(times, window) && (more != [] ==> StaysDropped(times, more[0], window))
  {
    hide StaysDropped;
    var all := times + more;
    forall k | 0 <= k < |times|
      ensures StaysDropped(times[..k], times[k], window)
    {
      assert all[..k] == times[..k] && all[k] == times[k];
    }
    if more != [] {
      assert all[..|times|] == times && all[|times|] == more[0];
    }
  }

  lemma {:induction false} TimesAre(events: seq<Event>)
    ensures forall t :: t in Times(events) ==>
                          exists k :: 0 <= k < |events| && IsReserve(events[k]) && events[k].op.now == t
    ensures ClockMovesForward(events) ==>
              forall i, j :: 0 <= i < j < |Times(events)| ==> Times(events)[i] <= Times(events)[j]
  {
    if events != [] {
      var n := |events| - 1;
      var before, last := events[..n], events[n];
      assert forall k :: 0 <= k < n ==> before[k] == events[k];
      TimesAre(before);
      forall t | t in Times(events)
        ensures exists k :: 0 <= k < |events| && IsReserve(events[k]) && events[k].op.now == t
      {
        if t in Times(before) {
          var k :| 0 <= k < n && IsReserve(before[k]) && before[k].op.now == t;
          assert IsReserve(events[k]);
        } else {
          assert IsReserve(events[n]);
        }
      }
      if ClockMovesForward(events) && IsReserve(last) {
        forall i | 0 <= i < |Times(before)|
          ensures Times(before)[i] <= last.op.now
        {
          assert Times(before)[i] in Times(before);
          var k :| 0 <= k < n && IsReserve(before[k]) && before[k].op.now == Times(before)[i];
          assert IsReserve(events[k]) && IsReserve(events[n]);
        }
      }
    }
  }

  /** A clock that moves forward brings nothing back. */
  lemma ForwardClockBringsNothingBack(events: seq<Event>, window: int)
    requires ClockMovesForward(events)
    ensures NothingComesBack(Times(events), window)
  {
    TimesAre(events);
    hide Times, ClockMovesForward;
    var times := Times(events);
    forall k | 0 <= k < |times|
      ensures StaysDropped(times[..k], times[k], window)
    {
      forall i, j | 0 <= i < j < k && times[..k][i] <= times[..k][j] - window
        ensures times[..k][i] <= times[k] - window
      {
        assert times[j] <= times[k];
      }
    }
  }

  /** At every time that brings nothing back, `log` counts for at least as much as the whole history does. */
  ghost predicate Dominates(log: seq<SpendEntry>, history: seq<SpendEntry>, times: seq<int>, window: int) {
    forall now :: StaysDropped(times, now, window)
                  ==> Total(Counted(history, now, window)) <= Total(Counted(log, now, window))
  }

  predicate MadeAt(history: seq<SpendEntry>, times: seq<int>) {
    forall e :: e in history ==> e.at in times
  }

  /** What every run keeps: each ledger knows enough, and each reservation fitted when it was made. */
  ghost predicate Bounded(cfg: Config, d: Device, history: seq<SpendEntry>, times: seq<int>) {
    && Positive(history) && EachFitted(history, cfg.spendLimit, cfg.spendLimitWindowMs) && MadeAt(history, times)
    && Positive(LogOf(d.current)) && Positive(LogOf(d.stored))
    && Dominates(LogOf(d.stored), history, times, cfg.spendLimitWindowMs)
    && (d.current.Some? ==> Dominates(LogOf(d.current), history, times, cfg.spendLimitWindowMs))
  }

  lemma {:induction false} SameCounted(log: seq<SpendEntry>, a: int, b: int, window: int)
    requires forall e :: e in log ==> (e.at > a - window <==> e.at > b - window)
    ensures Counted(log, a, window) == Counted(log, b, window)
  {
    if log != [] {
      SameCounted(log[1..], a, b, window);
      assert log[0] in log;
    }
  }

  /** Pruned at `since` and counted at `now`: what is inside the window at the later of the two. */
  lemma CountedAtBoth(log: seq<SpendEntry>, since: int, now: int, window: int)
    ensures Counted(Counted(log, since, window), now, window)
            == Counted(log, if now < since then since else now, window)
  {
    hide Counted;
    if now < since {
      CountedAreRecent(log, since, window);
      AllCounted(Counted(log, since, window), now, window);
    } else {
      CountedTwice(log, since, now, window);
    }
  }

  lemma AppendDominatesAt(log: seq<SpendEntry>, history: seq<SpendEntry>, times: seq<int>, entry: SpendEntry, now: int,
                          window: int)
    requires Dominates(log, history, times, window) && MadeAt(history, times) && entry.amount > 0
    requires StaysDropped(times, entry.at, window) && StaysDropped(times + [entry.at], now, window)
    ensures var next := Counted(log, entry.at, window) + [entry];
            && Total(Counted(history, now, window)) <= Total(Counted(next, now, window))
            && Total(Counted(history + [entry], now, window)) <= Total(Counted(next, now, window))
  {
    var pruned := Counted(log, entry.at, window);
    StaysDroppedLater(times, entry.at, now, window);
    hide Counted, Total, StaysDropped;
    CountedAtBoth(log, entry.at, now, window);
    if now < entry.at {
      SameCounted(history, now, entry.at, window);
    }
    assert Total(Counted(history, now, window)) <= Total(Counted(pruned, now, window));
    CountOneMore(pruned, entry, now, window);
    CountOneMore(history, entry, now, window);
  }

  lemma AppendDominates(log: seq<SpendEntry>, history: seq<SpendEntry>, times: seq<int>, entry: SpendEntry, window: int)
    requires Dominates(log, history, times, window) && MadeAt(history, times) && entry.amount > 0
    requires StaysDropped(times, entry.at, window)
    ensures Dominates(Counted(log, entry.at, window) + [entry], history, times + [entry.at], window)
    ensures Dominates(Counted(log, entry.at, window) + [entry], history + [entry], times + [entry.at], window)
  {
    hide Counted, Total, StaysDropped, MadeAt;
    forall now | StaysDropped(times + [entry.at], now, window)
      ensures var next := Counted(log, entry.at, window) + [entry];
              && Total(Counted(history, now, window)) <= Total(Counted(next, now, window))
              && Total(Counted(history + [entry], now, window)) <= Total(Counted(next, now, window))
    {
      AppendDominatesAt(log, history, times, entry, now, window);
    }
  }

  lemma DominatesLater(log: seq<SpendEntry>, history: seq<SpendEntry>, times: seq<int>, later: int, window: int)
    requires Dominates(log, history, times, window)
    ensures Dominates(log, history, times + [later], window)
  {
    hide Total, Counted, StaysDropped;
    forall now | StaysDropped(times + [later], now, window)
      ensures Total(Counted(history, now, window)) <= Total(Counted(log, now, window))
    {
      StaysDroppedLater(times, later, now, window);
    }
  }

  lemma DominatesAt(log: seq<SpendEntry>, history: seq<SpendEntry>, times: seq<int>, now: int, window: int)
    requires Dominates(log, history, times, window) && StaysDropped(times, now, window)
    ensures Total(Counted(history, now, window)) <= Total(Counted(log, now, window))
  {
    hide Total, Counted, StaysDropped;
  }

  lemma FitsOneMore(history: seq<SpendEntry>, entry: SpendEntry, limit: int, window: int)
    requires EachFitted(history, limit, window)
    requires Total(Counted(history, entry.at, window)) + entry.amount <= limit
    ensures EachFitted(history + [entry], limit, window)
  {
    var next := history + [entry];
    forall k | 0 <= k < |next|
      ensures Total(Counted(next[..k], next[k].at, window)) + next[k].amount <= limit
    {
      assert next[..k] == history[..k];
      assert history[..|history|] == history;
    }
  }

  lemma ReserveStaysBounded(cfg: Config, d: Device, e: Event, history: seq<SpendEntry>, times: seq<int>)
    requires Bounded(cfg, d, history, times) && IsReserve(e) && StaysDropped(times, e.op.now, cfg.spendLimitWindowMs)
    requires Loaded(d).Some? && Operate(cfg, Loaded(d).value, e.op).Ok?
    ensures Bounded(cfg, Apply(cfg, d, e).0, history + SignedBy(cfg, d, e), times + [e.op.now])
  {
    ReservationLogs(cfg, d, e);
    Written(cfg, d, e);
    hide Apply, Operate, Counted, Total, EachFitted, SignedBy, Persist, StaysDropped;
    var log, entry, window := LogOf(Loaded(d)), SpendEntry(e.op.now, e.op.amount), cfg.spendLimitWindowMs;
    AppendDominates(log, history, times, entry, window);
    DominatesLater(LogOf(d.stored), history, times, e.op.now, window);
    DominatesAt(log, history, times, e.op.now, window);
    hide Dominates;
    assert Positive(log) && history + [] == history;
    CountedIsPart(log, e.op.now, window);
    assert Positive(Counted(log, e.op.now, window) + [entry]) && Positive(history + [entry]);
    FitsOneMore(history, entry, cfg.spendLimit, window);
  }

  lemma StepStaysBounded(cfg: Config, d: Device, e: Event, history: seq<SpendEntry>, times: seq<int>)
    requires Bounded(cfg, d, history, times)
    requires IsReserve(e) ==> StaysDropped(times, e.op.now, cfg.spendLimitWindowMs)
    ensures Bounded(cfg, Apply(cfg, d, e).0, history + SignedBy(cfg, d, e),
                    times + if IsReserve(e) then [e.op.now] else [])
  {
    if IsReserve(e) && Loaded(d).Some? && Operate(cfg, Loaded(d).value, e.op).Ok? {
      ReserveStaysBounded(cfg, d, e, history, times);
    } else {
      OnlyReservationsTouchTheLog(cfg, d, e);
      assert SignedBy(cfg, d, e) == [] && history + [] == history && times + [] == times;
      hide Apply, Operate, EachFitted, SignedBy, Dominates, Positive, StaysDropped;
      if IsReserve(e) {
        DominatesLater(LogOf(d.stored), history, times, e.op.now, cfg.spendLimitWindowMs);
        DominatesLater(LogOf(Loaded(d)), history, times, e.op.now, cfg.spendLimitWindowMs);
      }
    }
  }

  lemma NothingYet(cfg: Config, d: Device)
    requires Positive(LogOf(d.current)) && Positive(LogOf(d.stored))
    ensures Bounded(cfg, d, [], [])
  {
    forall log: seq<SpendEntry>, now | Positive(log)
      ensures Total(Counted([], now, cfg.spendLimitWindowMs)) <= Total(Counted(log, now, cfg.spendLimitWindowMs))
    {
      CountedIsPart(log, now, cfg.spendLimitWindowMs);
    }
  }

  lemma {:induction false} RunsStayBounded(cfg: Config, d: Device, events: seq<Event>)
    requires Positive(LogOf(d.current)) && Positive(LogOf(d.stored))
    requires NothingComesBack(Times(events), cfg.spendLimitWindowMs)
    ensures Bounded(cfg, Run(cfg, d, events), History(cfg, d, events), Times(events))
  {
    if events == [] {
      NothingYet(cfg, d);
    } else {
      var before, e := events[..|events| - 1], events[|events| - 1];
      NothingCameBack(Times(before), if IsReserve(e) then [e.op.now] else [], cfg.spendLimitWindowMs);
      hide Apply, Bounded, StaysDropped, SignedBy, NothingComesBack;
      RunsStayBounded(cfg, d, before);
      StepStaysBounded(cfg, Run(cfg, d, before), e, History(cfg, d, before), Times(before));
    }
  }

  /**
    The theft bound.  In every run at whose reservations no entry dropped before would count again, as none
    does when the clock never moves back — any mix of operations, failed and lost writes, crashes and
    reloads — what was signed from `t0` to `t0 + held` totals at most the limit once per started window.
   */
  lemma SpendingIsBounded(cfg: Config, d: Device, events: seq<Event>, t0: int, held: nat)
    requires Sane(cfg) && Positive(LogOf(d.current)) && Positive(LogOf(d.stored))
    requires NothingComesBack(Times(events), cfg.spendLimitWindowMs)
    ensures Total(Between(History(cfg, d, events), t0, t0 + held + 1)) <= TheftExposure(held, cfg.spendLimit,
            cfg.spendLimitWindowMs)
  {
    RunsStayBounded(cfg, d, events);
    PeriodBound(History(cfg, d, events), t0, held, cfg.spendLimit, cfg.spendLimitWindowMs);
  }

  lemma ForwardSpendingIsBounded(cfg: Config, d: Device, events: seq<Event>, t0: int, held: nat)
    requires Sane(cfg) && Positive(LogOf(d.current)) && Positive(LogOf(d.stored)) && ClockMovesForward(events)
    ensures Total(Between(History(cfg, d, events), t0, t0 + held + 1)) <= TheftExposure(held, cfg.spendLimit,
            cfg.spendLimitWindowMs)
  {
    ForwardClockBringsNothingBack(events, cfg.spendLimitWindowMs);
    SpendingIsBounded(cfg, d, events, t0, held);
  }

  // --- the pruned log is the full history ----------------------------------------------------------

  lemma {:induction false} EarliestClock(events: seq<Event>) returns (start: int)
    ensures forall i :: 0 <= i < |events| && IsReserve(events[i]) ==> start <= events[i].op.now
  {
    if events == [] {
      start := 0;
    } else {
      start := EarliestClock(events[1..]);
      if IsReserve(events[0]) && events[0].op.now < start {
        start := events[0].op.now;
      }
      assert forall i :: 0 < i < |events| ==> events[i] == events[1..][i - 1];
    }
  }

  /** A reservation that was logged, and whether it was answered: the app signs only when it was. */
  datatype Logged = Logged(entry: SpendEntry, answered: bool)

  /** The logs in memory and in the store, had nothing ever been pruned. */
  datatype Unpruned = Unpruned(current: Option<seq<Logged>>, stored: Option<seq<Logged>>)

  function Held(u: Unpruned): seq<Logged> {
    if u.current.Some? then u.current.value else if u.stored.Some? then u.stored.value else []
  }

  function Kept(u: Unpruned, log: seq<Logged>, write: Write): Unpruned {
    Unpruned(Some(log), if write.RejectedBeforeStoring? then u.stored else Some(log))
  }

  /** What each operation does to unpruned logs: the same writes, with the same outcomes. */
  function Keep(cfg: Config, d: Device, u: Unpruned, e: Event): Unpruned {
    match e
    case Crash => u.(current := None)
    case Recover(maxProbe, seen, epoch, write) => if RecoveredState(cfg, d, maxProbe, seen, epoch).Err? then u
      else Kept(u, Held(u), write)
    case Create(size, key, setup, epoch, write) => if Created(cfg, d, size, key, setup, epoch).Err? then u
      else Kept(u, Held(u), write)
    case OnLedger(op) =>
      if Loaded(d).None? then u
      else if Operate(cfg, Loaded(d).value, op).Err? || op.Load? then u.(current := Some(Held(u)))
      else if op.Reserve? then Kept(u, Held(u) + [Logged(SpendEntry(op.now, op.amount), op.write.Resolved?)], op.write)
      else Kept(u, Held(u), WriteOf(op))
  }

  function KeptBy(cfg: Config, events: seq<Event>): Unpruned {
    if events == [] then Unpruned(None, None)
    else
      var before := events[..|events| - 1];
      Keep(cfg, Run(cfg, Device(None, None), before), KeptBy(cfg, before), events[|events| - 1])
  }

  function Entries(log: seq<Logged>): (r: seq<SpendEntry>) {
    if log == [] then [] else Entries(log[..|log| - 1]) + [log[|log| - 1].entry]
  }

  function Answered(log: seq<Logged>): (r: seq<SpendEntry>) {
    if log == [] then []
    else Answered(log[..|log| - 1]) + if log[|log| - 1].answered then [log[|log| - 1].entry] else []
  }

  /** A reservation that was never answered still counts against the allowance. */
  predicate CountsUnanswered(log: seq<Logged>, now: int, window: int) {
    exists l :: l in log && !l.answered && l.entry.at > now - window
  }

  lemma LogOneMore(log: seq<Logged>, l: Logged)
    ensures Entries(log + [l]) == Entries(log) + [l.entry]
    ensures Answered(log + [l]) == Answered(log) + if l.answered then [l.entry] else []
  {
    assert (log + [l])[..|log|] == log;
  }

  /** What an unpruned log counts over what was answered is what was not, as far as it counts. */
  lemma {:induction false} CountedUnanswered(log: seq<Logged>, now: int, window: int)
    requires Positive(Entries(log))
    ensures Total(Counted(Answered(log), now, window)) <= Total(Counted(Entries(log), now, window))
    ensures CountsUnanswered(log, now, window)
            ==> Total(Counted(Answered(log), now, window)) < Total(Counted(Entries(log), now, window))
    ensures !CountsUnanswered(log, now, window)
            ==> Counted(Answered(log), now, window) == Counted(Entries(log), now, window)
  {
    if log != [] {
      var head, l := log[..|log| - 1], log[|log| - 1];
      assert log == head + [l];
      assert forall e :: e in Entries(head) ==> e in Entries(log);
      CountedUnanswered(head, now, window);
      CountsLast(head, l, now, window);
      assert l.entry in Entries(log);
      CountOneMore(Entries(head), l.entry, now, window);
      CountOneMore(Answered(head), l.entry, now, window);
      hide Counted, Total, CountsUnanswered;
      assert Answered(head) + [] == Answered(head);
    }
  }

  lemma CountsLast(head: seq<Logged>, l: Logged, now: int, window: int)
    ensures CountsUnanswered(head + [l], now, window) <==>
            CountsUnanswered(head, now, window) || (!l.answered && l.entry.at > now - window)
  {
    if CountsUnanswered(head, now, window) {
      var x :| x in head && !x.answered && x.entry.at > now - window;
      assert x in head + [l];
    }
    assert l in head + [l];
  }

  lemma CountOneMore(log: seq<SpendEntry>, entry: SpendEntry, now: int, window: int)
    ensures Counted(log + [entry], now, window) == Counted(log, now, window) + if entry.at > now - window then [entry]
            else []
    ensures Total(Counted(log + [entry], now, window)) ==
            Total(Counted(log, now, window)) + if entry.at > now - window then entry.amount else 0
  {
    CountedAppend(log, [entry], now, window);
    assert Counted([entry], now, window) == if entry.at > now - window then [entry] else [];
    TotalAppend(Counted(log, now, window), Counted([entry], now, window));
    assert Total([entry]) == entry.amount;
  }

  /** From `time` on, `log` counts exactly the entries the full log counts, in the same order. */
  ghost predicate Refines(log: seq<SpendEntry>, full: seq<SpendEntry>, time: int, window: int) {
    forall now :: now >= time ==> Counted(log, now, window) == Counted(full, now, window)
  }

  /** A ledger's pruned log against the unpruned one, and that against everything answered. */
  ghost predicate LogExact(cfg: Config, state: Option<PoolState>, full: Option<seq<Logged>>, history: seq<SpendEntry>,
                           time: int) {
    && (state.None? <==> full.None?)
    && (state.Some? ==>
          && Refines(LogOf(state), Entries(full.value), time, cfg.spendLimitWindowMs)
          && Answered(full.value) == history && Positive(Entries(full.value)))
  }

  ghost predicate Exact(cfg: Config, d: Device, u: Unpruned, history: seq<SpendEntry>, time: int) {
    && LogExact(cfg, d.current, u.current, history, time) && LogExact(cfg, d.stored, u.stored, history, time)
    && (d.stored.None? ==> history == [])
  }

  lemma AppendRefines(log: seq<SpendEntry>, full: seq<SpendEntry>, time: int, now: int, entry: SpendEntry, window: int)
    requires Refines(log, full, time, window) && time <= now
    ensures Refines(Counted(log, now, window) + [entry], full + [entry], now, window)
  {
    forall later | later >= now
      ensures Counted(Counted(log, now, window) + [entry], later, window) == Counted(full + [entry], later, window)
    {
      CountedTwice(log, now, later, window);
      CountedAppend(Counted(log, now, window), [entry], later, window);
      CountedAppend(full, [entry], later, window);
    }
  }

  /** The ledger an operation starts from, exact or not there at all. */
  lemma HeldIsExact(cfg: Config, d: Device, u: Unpruned, history: seq<SpendEntry>, time: int)
    requires Exact(cfg, d, u, history, time)
    ensures Refines(LogOf(Loaded(d)), Entries(Held(u)), time, cfg.spendLimitWindowMs)
    ensures Answered(Held(u)) == history && Positive(Entries(Held(u)))
  {
    hide Refines;
    assert Loaded(d).None? ==> LogOf(Loaded(d)) == [] && Entries(Held(u)) == [];
    NothingRefines(time, cfg.spendLimitWindowMs);
  }

  lemma NothingRefines(time: int, window: int)
    ensures Refines([], [], time, window)
  {
  }

  lemma RefinesLater(cfg: Config, d: Device, u: Unpruned, history: seq<SpendEntry>, time: int, later: int)
    requires Exact(cfg, d, u, history, time) && time <= later
    ensures Exact(cfg, d, u, history, later)
  {
  }

  /** An operation that gets as far as its write: what it writes, however the write ends, is exact. */
  lemma WriteStaysExact(cfg: Config, d: Device, u: Unpruned, history: seq<SpendEntry>, time: int,
                        state: PoolState, log: seq<Logged>, next: seq<SpendEntry>, write: Write)
    requires Exact(cfg, d, u, history, time) && LogExact(cfg, Some(state), Some(log), next, time)
    requires next == history || write.Resolved?
    ensures Exact(cfg, Persist(Device(Loaded(d), d.stored), state, write), Kept(u, log, write), next, time)
  {
    hide LogExact;
  }

  /** A reservation that goes through, answered or not. */
  lemma ReserveStaysExact(cfg: Config, d: Device, u: Unpruned, e: Event, history: seq<SpendEntry>, time: int)
    requires Exact(cfg, d, u, history, time) && IsReserve(e) && time <= e.op.now
    requires Loaded(d).Some? && Operate(cfg, Loaded(d).value, e.op).Ok?
    ensures Exact(cfg, Apply(cfg, d, e).0, Keep(cfg, d, u, e), history + SignedBy(cfg, d, e), e.op.now)
  {
    var state, entry, log := Operate(cfg, Loaded(d).value, e.op).value.0, SpendEntry(e.op.now, e.op.amount), Held(u);
    var next := log + [Logged(entry, e.op.write.Resolved?)];
    var signed := history + SignedBy(cfg, d, e);
    ReservationLogs(cfg, d, e);
    Written(cfg, d, e);
    HeldIsExact(cfg, d, u, history, time);
    AppendRefines(LogOf(Loaded(d)), Entries(log), time, e.op.now, entry, cfg.spendLimitWindowMs);
    LogOneMore(log, Logged(entry, e.op.write.Resolved?));
    RefinesLater(cfg, d, u, history, time, e.op.now);
    assert Keep(cfg, d, u, e) == Kept(u, next, e.op.write);
    hide Operate, Apply, Keep, Kept, Counted, Entries, Answered, Refines, Exact, Held, SignedBy, Persist, Loaded, Total;
    assert history + [] == history;
    assert LogExact(cfg, Some(state), Some(next), signed, e.op.now);
    WriteStaysExact(cfg, d, u, history, e.op.now, state, next, signed, e.op.write);
  }

  /** Where the ledger of a reservation that goes through ends up. */
  lemma Written(cfg: Config, d: Device, e: Event)
    requires IsReserve(e) && Loaded(d).Some? && Operate(cfg, Loaded(d).value, e.op).Ok?
    ensures Apply(cfg, d, e).0 == Persist(Device(Loaded(d), d.stored), Operate(cfg, Loaded(d).value, e.op).value.0,
                                          e.op.write)
    ensures Apply(cfg, d, e).0.current == Some(Operate(cfg, Loaded(d).value, e.op).value.0)
    ensures SignedBy(cfg, d, e) == if e.op.write.Resolved? then [SpendEntry(e.op.now, e.op.amount)] else []
  {
    hide Operate;
  }

  /** The ledger held taken into memory, and nothing written. */
  lemma LoadedStaysExact(cfg: Config, d: Device, u: Unpruned, history: seq<SpendEntry>, time: int)
    requires Exact(cfg, d, u, history, time)
    ensures Exact(cfg, Device(None, d.stored), u.(current := None), history, time)
    ensures Loaded(d).Some? ==> Exact(cfg, Device(Loaded(d), d.stored), u.(current := Some(Held(u))), history, time)
  {
    HeldIsExact(cfg, d, u, history, time);
    hide Refines, Answered, Entries;
  }

  /** Another operation's write: the log it found. */
  lemma SameLogStaysExact(cfg: Config, d: Device, u: Unpruned, history: seq<SpendEntry>, time: int, state: PoolState,
                          write: Write)
    requires Exact(cfg, d, u, history, time) && LogOf(Some(state)) == LogOf(Loaded(d))
    ensures Exact(cfg, Persist(Device(Loaded(d), d.stored), state, write), Kept(u, Held(u), write), history, time)
  {
    HeldIsExact(cfg, d, u, history, time);
    hide Refines, Answered, Entries, Exact, Held, LogOf;
    assert LogExact(cfg, Some(state), Some(Held(u)), history, time);
    WriteStaysExact(cfg, d, u, history, time, state, Held(u), history, write);
  }

  lemma OthersStayExact(cfg: Config, d: Device, u: Unpruned, e: Event, history: seq<SpendEntry>, time: int)
    requires Exact(cfg, d, u, history, time)
    requires !(IsReserve(e) && Loaded(d).Some? && Operate(cfg, Loaded(d).value, e.op).Ok?)
    ensures Exact(cfg, Apply(cfg, d, e).0, Keep(cfg, d, u, e), history + SignedBy(cfg, d, e), time)
  {
    KeptLogs(cfg, d, e);
    LoadedStaysExact(cfg, d, u, history, time);
    hide Operate, RecoveredState, Created, Exact, LogOf, Held;
    assert SignedBy(cfg, d, e) == [] && history + [] == history;
    match e
    case Crash =>
    case Recover(maxProbe, seen, epoch, write) =>
      var next := RecoveredState(cfg, d, maxProbe, seen, epoch);
      if next.Ok? {
        SameLogStaysExact(cfg, d, u, history, time, next.value, write);
      }
    case Create(size, key, setup, epoch, write) =>
      var next := Created(cfg, d, size, key, setup, epoch);
      if next.Ok? {
        SameLogStaysExact(cfg, d, u, history, time, next.value, write);
      }
    case OnLedger(op) =>
      if Loaded(d).Some? && Operate(cfg, Loaded(d).value, op).Ok? && !op.Load? {
        SameLogStaysExact(cfg, d, u, history, time, Operate(cfg, Loaded(d).value, op).value.0, WriteOf(op));
      }
  }

  /** Any ledger written by another operation holds the log it found. */
  lemma KeptLogs(cfg: Config, d: Device, e: Event)
    ensures e.Recover? && RecoveredState(cfg, d, e.maxProbe, e.seen, e.epoch).Ok? ==>
              LogOf(Some(RecoveredState(cfg, d, e.maxProbe, e.seen, e.epoch).value)) == LogOf(Loaded(d))
    ensures e.Create? && Created(cfg, d, e.size, e.key, e.setup, e.epoch).Ok? ==>
              LogOf(Some(Created(cfg, d, e.size, e.key, e.setup, e.epoch).value)) == LogOf(Loaded(d))
    ensures e.OnLedger? && !e.op.Reserve? && Loaded(d).Some? && Operate(cfg, Loaded(d).value, e.op).Ok? ==>
              LogOf(Some(Operate(cfg, Loaded(d).value, e.op).value.0)) == LogOf(Loaded(d))
  {
    hide Find, RefreshSlots, ReconciledSlots, Probe, With, Refund;
  }

  lemma {:induction false} RunsStayExact(cfg: Config, events: seq<Event>, start: int) returns (time: int)
    requires ClockMovesForward(events)
    requires forall i :: 0 <= i < |events| && IsReserve(events[i]) ==> start <= events[i].op.now
    ensures Exact(cfg, Run(cfg, Device(None, None), events), KeptBy(cfg, events),
                  History(cfg, Device(None, None), events), time)
    ensures time == start || exists i :: 0 <= i < |events| && IsReserve(events[i]) && time == events[i].op.now
  {
    hide Exact, Apply, Keep, SignedBy;
    if events == [] {
      time := start;
      NothingIsExact(cfg, start);
    } else {
      var n := |events| - 1;
      var before, e := events[..n], events[n];
      assert forall i :: 0 <= i < n ==> before[i] == events[i];
      var earlier := RunsStayExact(cfg, before, start);
      var d, u, history := Run(cfg, Device(None, None), before), KeptBy(cfg, before),
        History(cfg, Device(None, None), before);
      if earlier != start {
        var i :| 0 <= i < |before| && IsReserve(before[i]) && earlier == before[i].op.now;
        assert IsReserve(events[i]) && earlier == events[i].op.now;
      }
      if IsReserve(e) && Loaded(d).Some? && Operate(cfg, Loaded(d).value, e.op).Ok? {
        ReserveStaysExact(cfg, d, u, e, history, earlier);
        time := e.op.now;
        assert time == events[n].op.now;
      } else {
        OthersStayExact(cfg, d, u, e, history, earlier);
        time := earlier;
      }
    }
  }

  lemma NothingIsExact(cfg: Config, time: int)
    ensures Exact(cfg, Device(None, None), Unpruned(None, None), [], time)
  {
  }

  /**
    The pruned log against the history, in every run with a clock that does not move back, whatever
    became of its writes, for any `now` not before a reservation was tried.  It counts exactly what an
    unpruned ledger written the same way would count; and the allowance it gives is the one computed
    from every reservation ever answered exactly when no reservation left unanswered by a failed write
    still counts in the ledger held.
   */
  lemma PrunedLogIsHistory(cfg: Config, events: seq<Event>, now: int)
    requires ClockMovesForward(events)
    requires forall i :: 0 <= i < |events| && IsReserve(events[i]) ==> events[i].op.now <= now
    ensures var log, full := LogOf(Loaded(Run(cfg, Device(None, None), events))), Held(KeptBy(cfg, events));
            var history := History(cfg, Device(None, None), events);
            && Counted(log, now, cfg.spendLimitWindowMs) == Counted(Entries(full), now, cfg.spendLimitWindowMs)
            && Answered(full) == history
            && (AllowanceOf(log, now, cfg.spendLimit, cfg.spendLimitWindowMs)
                == AllowanceOf(history, now, cfg.spendLimit, cfg.spendLimitWindowMs)
                <==> !CountsUnanswered(full, now, cfg.spendLimitWindowMs))
  {
    hide Run, History, Counted, Apply, ClockMovesForward, KeptBy, CountsUnanswered, Answered, Entries, Exact;
    var earliest := EarliestClock(events);
    var time := RunsStayExact(cfg, events, if earliest <= now then earliest else now);
    hide IsReserve;
    assert time <= now;
    HeldIsExact(cfg, Run(cfg, Device(None, None), events), KeptBy(cfg, events),
                History(cfg, Device(None, None), events), time);
    CountedUnanswered(Held(KeptBy(cfg, events)), now, cfg.spendLimitWindowMs);
  }

  /** A run none of whose reservations meets a failed write. */
  predicate ReservationsResolve(events: seq<Event>) {
    forall i :: 0 <= i < |events| && IsReserve(events[i]) ==> events[i].op.write.Resolved?
  }

  lemma AllAnswered(cfg: Config, d: Device, u: Unpruned, e: Event)
    requires (forall l :: l in Held(u) ==> l.answered)
             && (u.stored.Some? ==> forall l :: l in u.stored.value ==> l.answered)
    requires IsReserve(e) ==> e.op.write.Resolved?
    ensures var v := Keep(cfg, d, u, e);
            (forall l :: l in Held(v) ==> l.answered)
              && (v.stored.Some? ==> forall l :: l in v.stored.value ==> l.answered)
  {
    hide Operate, RecoveredState, Created;
  }

  lemma {:induction false} AllAnsweredSoFar(cfg: Config, events: seq<Event>)
    requires ReservationsResolve(events)
    ensures var u := KeptBy(cfg, events);
            (forall l :: l in Held(u) ==> l.answered)
              && (u.stored.Some? ==> forall l :: l in u.stored.value ==> l.answered)
  {
    if events != [] {
      var before := events[..|events| - 1];
      AllAnsweredSoFar(cfg, before);
      hide Keep;
      AllAnswered(cfg, Run(cfg, Device(None, None), before), KeptBy(cfg, before), events[|events| - 1]);
    }
  }

  /** When every reservation's write resolves, the pruned log gives exactly the allowance of the full history. */
  lemma ResolvedLogIsHistory(cfg: Config, events: seq<Event>, now: int)
    requires ClockMovesForward(events) && ReservationsResolve(events)
    requires forall i :: 0 <= i < |events| && IsReserve(events[i]) ==> events[i].op.now <= now
    ensures AllowanceOf(LogOf(Loaded(Run(cfg, Device(None, None), events))), now, cfg.spendLimit,
                        cfg.spendLimitWindowMs)
            == AllowanceOf(History(cfg, Device(None, None), events), now, cfg.spendLimit, cfg.spendLimitWindowMs)
  {
    hide Run, History, AllowanceOf, ClockMovesForward, KeptBy;
    PrunedLogIsHistory(cfg, events, now);
    AllAnsweredSoFar(cfg, events);
  }
}
