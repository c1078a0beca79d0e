/** Challenge epochs: the recorded windows are contiguous and strictly ordered in every state. */
module Epochs {
  import opened Types
  import opened Chain

  /** Slot at which window i starts; window i ends where window i + 1 starts. */
  function Boundary(ce: Clock, i: nat): nat
  {
    if i == 0 then 0 else Get(ce.stored, i - 1, ChalEpoch(0, 0, 0)).slot
  }

  ghost predicate ClockOk(s: State)
  {
    var ce := s.ce;
    && (forall e: nat :: e in ce.stored <==> e < ce.epoch)
    && (forall e: nat | e in ce.stored :: ce.stored[e].epoch == e)
    && (forall i: nat, j: nat | i < j <= ce.epoch :: Boundary(ce, i) < Boundary(ce, j))
    && ce.current.slot == Boundary(ce, ce.epoch)
    && ce.current.epoch == (if ce.epoch == 0 then 0 else ce.epoch - 1)
    && ce.previous.slot == (if ce.epoch == 0 then 0 else Boundary(ce, ce.epoch - 1))
    && ce.previous.epoch == (if ce.epoch < 2 then 0 else ce.epoch - 2)
    && ce.current.slot <= s.slot
  }

  lemma UpdateEpochKeeps(c: Crypto, s: State, p: EpochParams, t: State)
    requires ClockOk(s) && ApplyUpdateEpoch(c, s, p) == Ok(t)
    ensures ClockOk(t)
    ensures forall i: nat | i <= s.ce.epoch :: Boundary(t.ce, i) == Boundary(s.ce, i)
  {
    assert ChalDuration(s.version).value > 0;
    assert t.ce.current == t.ce.stored[s.ce.epoch];
    forall i: nat | i <= s.ce.epoch ensures Boundary(t.ce, i) == Boundary(s.ce, i) {
    }
    forall i: nat, j: nat | i < j <= t.ce.epoch ensures Boundary(t.ce, i) < Boundary(t.ce, j) {
      if j == t.ce.epoch && i < s.ce.epoch {
        assert Boundary(s.ce, i) < Boundary(s.ce, s.ce.epoch);
      }
    }
  }

  lemma SameClock(s: State, t: State)
    requires ClockOk(s) && t.ce == s.ce && t.slot == s.slot
    ensures ClockOk(t)
  {
  }

  lemma ClockStep(c: Crypto, s: State, from: nat, body: Payload, t: State)
    requires ClockOk(s) && Step(c, s, from, body) == Ok(t)
    ensures ClockOk(t)
  {
    match body
    case UpdateChalEpoch(p) => UpdateEpochKeeps(c, s, p, t);
    case Malformed(_) =>
    case _ => SameClock(s, t);
  }

  lemma {:induction false} BoundariesGrow(s: State, i: nat, j: nat)
    requires ClockOk(s) && i <= j <= s.ce.epoch
    ensures Boundary(s.ce, i) <= Boundary(s.ce, j)
  {
    if i < j { assert Boundary(s.ce, i) < Boundary(s.ce, j); }
  }

  /** No recorded window is longer than the shortest order. */
  ghost predicate ShortWindows(ce: Clock)
  {
    forall e: nat | e < ce.epoch :: SlotTime(Boundary(ce, e + 1)) - SlotTime(Boundary(ce, e)) <= ORDER_MIN
  }
}
