/** A run in which everything goes well: a payment lands, its merchant gives the slot back, and it is used again. */
module PoolCycle {
  import opened Common
  import opened Types
  import opened Signatures
  import opened NonceReturn
  import opened PoolModel
  import opened PoolWorld
  import opened PoolFailures
  import PoolAttained

  function Paid(value: Key, merchant: Key, now: int, landed: bool): SlotPayment {
    SlotPayment(0, value, merchant, now, landed, false)
  }

  /** The account moves on when the payment lands. */
  lemma LandingIt(cfg: Config, w: World, value: Key, next: Key, merchant: Key, now: int)
    requires w.lines(0) == [Some(value)] && w.payments == [Paid(value, merchant, now, false)] && value != next
    ensures Enabled(cfg, w, Land(0, next))
    ensures var v := After(cfg, w, Land(0, next));
            && v.lines(0) == [Some(value), Some(next)] && v.payments == [Paid(value, merchant, now, true)]
            && v.device == w.device && v.busy == w.busy && v.misled == w.misled && v.accepted == w.accepted
  {
    assert w.payments[0 := Paid(value, merchant, now, true)] == [Paid(value, merchant, now, true)];
  }

  /** The return the merchant signs for that is true, and is accepted. */
  lemma GivingBack(cfg: Config, w: World, value: Key, next: Key, merchant: Key, now: int, signature: seq<Byte>)
    requires value != next && |signature| == SIGNATURE_BYTES && w.busy.Some? && w.misled == {} && w.accepted == []
    requires w.device == Solo(cfg, SpentSlot(cfg, value, merchant, now), Ones(now, 1))
    requires w.lines(0) == [Some(value), Some(next)]
    ensures var e := Returned(cfg, merchant, value, next, signature);
            && Enabled(cfg, w, Commit(e, NO_VALUES))
            && var v := After(cfg, w, Commit(e, NO_VALUES));
            && v.misled == {} && v.accepted == [(0, next)]
  {
    var e := Returned(cfg, merchant, value, next, signature);
    ReturningOne(cfg, w, value, next, merchant, now, 1, signature);
    SoloReturn(cfg, value, next, merchant, now, 1, signature);
    assert Advanced(w, 0, value, next) by {
      assert w.lines(0)[0] == Some(value) && w.lines(0)[1] == Some(next);
    }
    assert RecordAt(Loaded(w.device).value.slots, 0) == Some(SpentRecord(value, merchant, now));
    hide Apply, Ones;
    assert [] + [(0, next)] == [(0, next)];
  }

  lemma PayingAndLanding(cfg: Config, value: Key, next: Key, merchant: Key, now: int)
    returns (worlds: seq<World>, steps: seq<Step>)
    requires cfg.spendLimitWindowMs > 0 && cfg.spendLimit >= 2 && value != next
    ensures IsRun(cfg, worlds, steps) && Last(worlds).lines(0) == [Some(value), Some(next)]
    ensures Last(worlds).payments == [Paid(value, merchant, now, true)] && Last(worlds).busy.None?
    ensures Last(worlds).device == Solo(cfg, SpentSlot(cfg, value, merchant, now), Ones(now, 1))
    ensures Last(worlds).accepted == [] && Last(worlds).misled == {}
  {
    hide Enabled, After, Solo;
    var ws0, ss0 := SetUpRun(cfg, value);
    Lengths(cfg, ws0, ss0);
    hide IsRun;
    assert Ones(now, 0) == [];
    SpendingOne(cfg, Began(Last(ws0)), value, merchant, now, 0);
    NothingAcceptedBy(cfg, Began(Last(ws0)), Spend(merchant, now), NO_VALUES);
    var ws1, ss1 := Perform(cfg, ws0, ss0, Spend(merchant, now), NO_VALUES);
    LandingIt(cfg, Last(ws1), value, next, merchant, now);
    Grow(cfg, ws1, ss1, Land(0, next));
    worlds, steps := ws1 + [After(cfg, Last(ws1), Land(0, next))], ss1 + [Land(0, next)];
  }

  /**
    A slot is set up and paid from, the payment lands, the merchant signs the move back to the payer, who
    accepts it, and pays from the slot again, now against the new value; nobody was misled.
   */
  lemma ASlotComesBack(cfg: Config, value: Key, next: Key, merchant: Key, now: int, signature: seq<Byte>)
    returns (worlds: seq<World>, steps: seq<Step>)
    requires cfg.spendLimitWindowMs > 0 && cfg.spendLimit >= 2 && value != next && |signature| == SIGNATURE_BYTES
    ensures IsRun(cfg, worlds, steps) && Last(worlds).lines(0) == [Some(value), Some(next)]
    ensures Last(worlds).payments == [Paid(value, merchant, now, true), Paid(next, merchant, now, false)]
    ensures Last(worlds).accepted == [(0, next)] && Last(worlds).misled == {}
  {
    hide Enabled, After, Solo, Ones;
    var ws2, ss2 := PayingAndLanding(cfg, value, next, merchant, now);
    Lengths(cfg, ws2, ss2);
    hide IsRun;
    GivingBack(cfg, Began(Last(ws2)), value, next, merchant, now, signature);
    ReturningOne(cfg, Began(Last(ws2)), value, next, merchant, now, 1, signature);
    var ws3, ss3 := Perform(cfg, ws2, ss2, Returned(cfg, merchant, value, next, signature), NO_VALUES);
    SpendingOne(cfg, Began(Last(ws3)), next, merchant, now, 1);
    NothingAcceptedBy(cfg, Began(Last(ws3)), Spend(merchant, now), NO_VALUES);
    worlds, steps := Perform(cfg, ws3, ss3, Spend(merchant, now), NO_VALUES);
  }
}
