/** The rolling-window spend log of the payer's pool, and the arithmetic of windows. */
module SpendLog {
  import opened Common

  datatype SpendEntry = SpendEntry(at: int, amount: int)

  datatype SpendAllowance = SpendAllowance(limit: int, spent: int, remaining: int, nextRefillAt: Option<int>)

  /** The entries still inside the window at `now`; one dated in the future counts too. */
  function Counted(log: seq<SpendEntry>, now: int, window: int): (r: seq<SpendEntry>) {
    if log == [] then []
    else (if log[0].at > now - window then [log[0]] else []) + Counted(log[1..], now, window)
  }

  function Total(log: seq<SpendEntry>): int {
    if log == [] then 0 else log[0].amount + Total(log[1..])
  }

  function Earliest(log: seq<SpendEntry>): (r: Option<int>)
  {
    if log == [] then None
    else
      var rest := Earliest(log[1..]);
      if rest.Some? && rest.value < log[0].at then rest else Some(log[0].at)
  }

  lemma {:induction false} EarliestIs(log: seq<SpendEntry>)
    ensures Earliest(log).None? <==> log == []
    ensures Earliest(log).Some? ==> forall e :: e in log ==> Earliest(log).value <= e.at
    ensures Earliest(log).Some? ==> exists e :: e in log && Earliest(log).value == e.at
  {
    if log != [] {
      EarliestIs(log[1..]);
      assert forall e :: e in log <==> e == log[0] || e in log[1..];
    }
  }

  function AllowanceOf(log: seq<SpendEntry>, now: int, limit: int, window: int): (a: SpendAllowance) {
    var entries := Counted(log, now, window);
    var spent := Total(entries);
    SpendAllowance(
      limit, spent, if spent >= limit then 0 else limit - spent,
      match Earliest(entries) case None => None case Some(at) => Some(at + window))
  }

  /** What an unlocked stolen device can sign while it is held: the limit, once per started window. */
  function TheftExposure(heldForMs: int, limit: int, windowMs: int): int
    requires windowMs > 0
  {
    limit * ((if heldForMs < 0 then 0 else heldForMs) / windowMs + 1)
  }

  predicate Positive(log: seq<SpendEntry>) {
    forall e :: e in log ==> e.amount > 0
  }

  // --- Counted and Total ---------------------------------------------------------------------------

  lemma Regroup(a: seq<SpendEntry>, b: seq<SpendEntry>, c: seq<SpendEntry>)
    ensures a + (b + c) == a + b + c
  {
  }

  lemma CountedStep(log: seq<SpendEntry>, now: int, window: int)
    requires log != []
    ensures Counted(log, now, window) == (if log[0].at > now - window then [log[0]] else [])
            + Counted(log[1..], now, window)
  {
  }

  lemma {:induction false} CountedAppend(a: seq<SpendEntry>, b: seq<SpendEntry>, now: int, window: int)
    ensures Counted(a + b, now, window) == Counted(a, now, window) + Counted(b, now, window)
  {
    if a == [] {
      assert a + b == b;
    } else {
      CountedAppend(a[1..], b, now, window);
      CountedStep(a + b, now, window);
      CountedStep(a, now, window);
      hide Counted;
      assert (a + b)[1..] == a[1..] + b;
      Regroup(if a[0].at > now - window then [a[0]] else [], Counted(a[1..], now, window), Counted(b, now, window));
    }
  }

  lemma {:induction false} TotalAppend(a: seq<SpendEntry>, b: seq<SpendEntry>)
    ensures Total(a + b) == Total(a) + Total(b)
  {
    if a == [] {
      assert a + b == b;
    } else {
      TotalAppend(a[1..], b);
      assert (a + b)[1..] == a[1..] + b;
    }
  }

  lemma TotalFirst(take: bool, e: SpendEntry, rest: seq<SpendEntry>)
    ensures Total((if take then [e] else []) + rest) == (if take then e.amount else 0) + Total(rest)
  {
    assert ([e] + rest)[1..] == rest && [] + rest == rest;
  }

  /** Pruning at one time loses nothing that a later time would count. */
  lemma {:induction false} CountedTwice(log: seq<SpendEntry>, earlier: int, later: int, window: int)
    requires earlier <= later
    ensures Counted(Counted(log, earlier, window), later, window) == Counted(log, later, window)
  {
    if log != [] {
      CountedTwice(log[1..], earlier, later, window);
      var head := if log[0].at > earlier - window then [log[0]] else [];
      CountedAppend(head, Counted(log[1..], earlier, window), later, window);
    }
  }

  lemma {:induction false} CountedIsPart(log: seq<SpendEntry>, now: int, window: int)
    ensures forall e :: e in Counted(log, now, window) ==> e in log
    ensures Positive(log) ==> 0 <= Total(Counted(log, now, window)) <= Total(log)
  {
    if log != [] {
      CountedIsPart(log[1..], now, window);
      TotalFirst(log[0].at > now - window, log[0], Counted(log[1..], now, window));
      assert Positive(log) ==> log[0] in log && log[0].amount > 0 && Positive(log[1..]);
    }
  }

  lemma {:induction false} AllCounted(log: seq<SpendEntry>, now: int, window: int)
    requires forall e :: e in log ==> e.at > now - window
    ensures Counted(log, now, window) == log
  {
    if log != [] {
      AllCounted(log[1..], now, window);
    }
  }

  lemma {:induction false} SomeDropped(log: seq<SpendEntry>, now: int, window: int)
    requires Positive(log) && exists e :: e in log && e.at <= now - window
    ensures Total(Counted(log, now, window)) < Total(log)
  {
    assert Positive(log[1..]) && log[0] in log;
    CountedIsPart(log[1..], now, window);
    TotalFirst(log[0].at > now - window, log[0], Counted(log[1..], now, window));
    if log[0].at > now - window {
      var e :| e in log && e.at <= now - window;
      assert e in log[1..];
      SomeDropped(log[1..], now, window);
    }
  }

  lemma {:induction false} CountedAreRecent(log: seq<SpendEntry>, now: int, window: int)
    ensures forall e :: e in Counted(log, now, window) ==> e.at > now - window
  {
    if log != [] {
      CountedAreRecent(log[1..], now, window);
    }
  }

  lemma NothingComesBackBefore(log: seq<SpendEntry>, now: int, later: int, window: int)
    requires now <= later && Earliest(Counted(log, now, window)).Some?
             && later < Earliest(Counted(log, now, window)).value + window
    ensures Counted(log, later, window) == Counted(log, now, window)
  {
    hide Counted, Earliest;
    EarliestIs(Counted(log, now, window));
    CountedTwice(log, now, later, window);
    AllCounted(Counted(log, now, window), later, window);
  }

  lemma SomethingComesBackAt(log: seq<SpendEntry>, now: int, window: int)
    requires Positive(log) && Earliest(Counted(log, now, window)).Some?
    ensures var t := Earliest(Counted(log, now, window)).value + window;
            t > now && 0 <= Total(Counted(log, t, window)) < Total(Counted(log, now, window))
  {
    CountedIsPart(log, now, window);
    CountedAreRecent(log, now, window);
    hide Counted, Total, Earliest;
    var entries := Counted(log, now, window);
    EarliestIs(entries);
    var t := Earliest(entries).value + window;
    var e :| e in entries && e.at == Earliest(entries).value;
    assert t > now;
    assert Positive(entries);
    CountedTwice(log, now, t, window);
    SomeDropped(entries, t, window);
    CountedIsPart(entries, t, window);
  }

  /** Until `t` what is spent stays as it is, and then it is less. */
  ghost predicate RefillsAt(log: seq<SpendEntry>, now: int, t: int, limit: int, window: int) {
    && t > now && AllowanceOf(log, t, limit, window).spent < AllowanceOf(log, now, limit, window).spent
    && forall later | now <= later < t
         :: AllowanceOf(log, later, limit, window).spent == AllowanceOf(log, now, limit, window).spent
  }

  lemma RefillsAtEarliest(log: seq<SpendEntry>, now: int, limit: int, window: int)
    requires Positive(log) && Earliest(Counted(log, now, window)).Some?
    ensures var t := Earliest(Counted(log, now, window)).value + window;
            RefillsAt(log, now, t, limit, window) && AllowanceOf(log, t, limit, window).spent >= 0
  {
    hide Counted, Total, Earliest, Positive, AllowanceOf;
    var t := Earliest(Counted(log, now, window)).value + window;
    SomethingComesBackAt(log, now, window);
    AllowanceParts(log, now, limit, window);
    AllowanceParts(log, t, limit, window);
    SpentUntil(log, now, limit, window);
  }

  /**
    `nextRefillAt` is the moment allowance next comes back if nothing more is signed: until then what is
    spent stays as it is, and then it is less; there is no such moment exactly when nothing is spent.
   */
  lemma RefillIsWhenAllowanceGrows(log: seq<SpendEntry>, now: int, limit: int, window: int)
    requires Positive(log)
    ensures var a := AllowanceOf(log, now, limit, window);
            match a.nextRefillAt
            case None => a.spent == 0
            case Some(t) => a.spent > 0 && RefillsAt(log, now, t, limit, window)
  {
    assert Total([]) == 0;
    hide Counted, Total, Earliest, Positive, AllowanceOf;
    AllowanceParts(log, now, limit, window);
    NothingEarliest(Counted(log, now, window));
    if Earliest(Counted(log, now, window)).Some? {
      RefillsAtEarliest(log, now, limit, window);
    }
  }

  lemma NothingEarliest(log: seq<SpendEntry>)
    ensures Earliest(log).None? <==> log == []
  {
    EarliestIs(log);
  }

  lemma AllowanceParts(log: seq<SpendEntry>, now: int, limit: int, window: int)
    ensures var a, entries := AllowanceOf(log, now, limit, window), Counted(log, now, window);
            && a.spent == Total(entries)
            && a.nextRefillAt == match Earliest(entries) case None => None case Some(at) => Some(at + window)
  {
  }

  lemma SpentUntil(log: seq<SpendEntry>, now: int, limit: int, window: int)
    requires Earliest(Counted(log, now, window)).Some?
    ensures forall later | now <= later < Earliest(Counted(log, now, window)).value + window
              :: AllowanceOf(log, later, limit, window).spent == AllowanceOf(log, now, limit, window).spent
  {
    hide Counted, Total, Earliest;
    forall later | now <= later < Earliest(Counted(log, now, window)).value + window
      ensures AllowanceOf(log, later, limit, window).spent == AllowanceOf(log, now, limit, window).spent
    {
      NothingComesBackBefore(log, now, later, window);
    }
  }

  /** The same log counts for no more at a later time. */
  lemma SpentIsAntitone(log: seq<SpendEntry>, earlier: int, later: int, window: int)
    requires earlier <= later && Positive(log)
    ensures Total(Counted(log, later, window)) <= Total(Counted(log, earlier, window))
  {
    CountedTwice(log, earlier, later, window);
    CountedIsPart(log, earlier, window);
    CountedIsPart(Counted(log, earlier, window), later, window);
  }

  // --- how much fits in a period -------------------------------------------------------------------

  /** The entries made from `from` on and before `until`. */
  function Between(log: seq<SpendEntry>, from: int, until: int): seq<SpendEntry> {
    if log == [] then []
    else (if from <= log[0].at < until then [log[0]] else []) + Between(log[1..], from, until)
  }

  /** Every entry, when it was made, fitted under the limit together with those then inside the window. */
  ghost predicate EachFitted(history: seq<SpendEntry>, limit: int, window: int) {
    forall k :: 0 <= k < |history| ==>
                  Total(Counted(history[..k], history[k].at, window)) + history[k].amount <= limit
  }

  lemma BetweenStep(log: seq<SpendEntry>, from: int, until: int)
    requires log != []
    ensures Between(log, from, until) == (if from <= log[0].at < until then [log[0]] else [])
            + Between(log[1..], from, until)
  {
  }

  lemma {:induction false} BetweenAppend(a: seq<SpendEntry>, b: seq<SpendEntry>, from: int, until: int)
    ensures Between(a + b, from, until) == Between(a, from, until) + Between(b, from, until)
  {
    if a == [] {
      assert a + b == b;
    } else {
      BetweenAppend(a[1..], b, from, until);
      BetweenStep(a + b, from, until);
      BetweenStep(a, from, until);
      hide Between;
      assert (a + b)[1..] == a[1..] + b;
      Regroup(if from <= a[0].at < until then [a[0]] else [], Between(a[1..], from, until), Between(b, from, until));
    }
  }

  lemma {:induction false} BetweenWithinCounted(log: seq<SpendEntry>, from: int, until: int, now: int, window: int)
    requires Positive(log) && now - window < from
    ensures Total(Between(log, from, until)) <= Total(Counted(log, now, window))
  {
    if log != [] {
      assert log[0] in log && Positive(log[1..]);
      BetweenWithinCounted(log[1..], from, until, now, window);
      TotalFirst(from <= log[0].at < until, log[0], Between(log[1..], from, until));
      TotalFirst(log[0].at > now - window, log[0], Counted(log[1..], now, window));
    }
  }

  /** One window, wherever it starts, holds at most the limit: look at the last entry inside it. */
  lemma {:induction false} OneWindow(history: seq<SpendEntry>, from: int, limit: int, window: int)
    requires Positive(history) && EachFitted(history, limit, window) && limit >= 0
    ensures Total(Between(history, from, from + window)) <= limit
  {
    if history != [] {
      var k := |history| - 1;
      var before, last := history[..k], history[k];
      assert history == before + [last];
      assert Positive(before) && last.amount > 0;
      BetweenAppend(before, [last], from, from + window);
      TotalAppend(Between(before, from, from + window), Between([last], from, from + window));
      if from <= last.at < from + window {
        BetweenWithinCounted(before, from, from + window, last.at, window);
      } else {
        assert EachFitted(before, limit, window) by {
          assert forall i :: 0 <= i < k ==> before[..i] == history[..i];
        }
        OneWindow(before, from, limit, window);
      }
    }
  }

  lemma {:induction false} BetweenSplit(log: seq<SpendEntry>, from: int, middle: int, until: int)
    requires from <= middle <= until
    ensures Total(Between(log, from, until)) == Total(Between(log, from, middle)) + Total(Between(log, middle, until))
  {
    if log != [] {
      BetweenSplit(log[1..], from, middle, until);
      TotalFirst(from <= log[0].at < until, log[0], Between(log[1..], from, until));
      TotalFirst(from <= log[0].at < middle, log[0], Between(log[1..], from, middle));
      TotalFirst(middle <= log[0].at < until, log[0], Between(log[1..], middle, until));
    }
  }

  lemma {:induction false} ManyWindows(history: seq<SpendEntry>, from: int, count: nat, limit: int, window: int)
    requires Positive(history) && EachFitted(history, limit, window) && limit >= 0 && window > 0
    ensures Total(Between(history, from, from + count * window)) <= limit * count
  {
    if count == 0 {
      NothingBetween(history, from);
    } else {
      ManyWindows(history, from, count - 1, limit, window);
      var middle := from + (count - 1) * window;
      assert middle + window == from + count * window && limit * count == limit * (count - 1) + limit;
      assert (count - 1) * window >= 0;
      BetweenSplit(history, from, middle, middle + window);
      OneWindow(history, middle, limit, window);
    }
  }

  lemma {:induction false} NothingBetween(log: seq<SpendEntry>, from: int)
    ensures Between(log, from, from) == []
  {
    if log != [] {
      NothingBetween(log[1..], from);
    }
  }

  lemma {:induction false} BetweenGrows(log: seq<SpendEntry>, from: int, until: int, later: int)
    requires Positive(log) && until <= later
    ensures Total(Between(log, from, until)) <= Total(Between(log, from, later))
  {
    if log != [] {
      assert log[0] in log && Positive(log[1..]);
      BetweenGrows(log[1..], from, until, later);
      TotalFirst(from <= log[0].at < until, log[0], Between(log[1..], from, until));
      TotalFirst(from <= log[0].at < later, log[0], Between(log[1..], from, later));
    }
  }

  /** Everything made from `t0` to `t0 + held`, both included, is at most the theft exposure. */
  lemma PeriodBound(history: seq<SpendEntry>, t0: int, held: nat, limit: int, window: int)
    requires Positive(history) && EachFitted(history, limit, window) && limit >= 0 && window > 0
    ensures Total(Between(history, t0, t0 + held + 1)) <= TheftExposure(held, limit, window)
  {
    var count := held / window + 1;
    var end := count * window;
    assert held < end by {
      assert held == held / window * window + held % window;
      assert end == held / window * window + window;
    }
    ManyWindows(history, t0, count, limit, window);
    BetweenGrows(history, t0, t0 + held + 1, t0 + end);
  }
}
