/**
The receive gain search of the RX I/Q calibration: a walk over the six
settings of a gain ladder, steered by power readings, and a correction of one
amplifier stage at its end.  A reading may depend on how often one was taken.
*/
module RxGainSearch {

  datatype Gain = Gain(biq1: nat, biq0: nat, lna2: nat, lna1: nat)

  const LADDER: seq<Gain> := [
    Gain(0, 0, 0, 0), Gain(0, 0, 1, 0), Gain(0, 1, 2, 0),
    Gain(0, 1, 3, 0), Gain(0, 4, 3, 0), Gain(0, 6, 3, 0)]
  const MAX_INDEX := 5
  const THRESHOLD := 10000
  const DESIRED_LOG2 := 13
  const MIX_TIA_GAIN := 3

  type U32 = n: int | 0 <= n < 0x1_0000_0000

  /** The `i`th reading, taken at step `x`. */
  type Meter = (nat, int) -> U32

  datatype Direction = Init | Up | Down

  /** The meter reads the same whenever it is asked, and never less further up. */
  ghost predicate Monotone(meter: Meter) {
    forall i: nat, k: nat, x: int, y: int ::
      0 <= x <= y <= MAX_INDEX ==> meter(i, x) <= meter(k, y)
  }

  /** The highest step at or below the threshold, or step 0. */
  ghost predicate Highest(meter: Meter, idx: int) {
    && 0 <= idx <= MAX_INDEX
    && (forall x: int :: idx < x <= MAX_INDEX ==> meter(0, x) > THRESHOLD)
    && (idx > 0 ==> meter(0, idx) <= THRESHOLD)
  }

  /** Where the walk goes: the `n`th step measured. */
  function Visit(up: bool, n: nat): int {
    if up then 3 + n else 3 - n
  }

  predicate QuietAt(meter: Meter, up: bool, k: nat) {
    meter(k, Visit(up, k)) <= THRESHOLD
  }

  /**
  A walk of `n` readings that chooses the step of reading `at`: it goes up from a
  quiet start and down from a loud one, as long as that does not change.  It
  chooses the last quiet step before or at the change, and the end of the ladder
  if there is no change.
  */
  ghost predicate Walks(meter: Meter, up: bool, n: nat, at: nat) {
    && 2 <= n <= 4 && (up <==> meter(0, 3) <= THRESHOLD)
    && (forall k :: 0 <= k < n ==> 0 <= Visit(up, k) <= MAX_INDEX)
    && (forall k :: 0 <= k < n - 1 ==> (QuietAt(meter, up, k) <==> up))
    && if QuietAt(meter, up, n - 1) <==> up then at == n - 1 && !(0 <= Visit(up, n) <= MAX_INDEX)
       else at == if up then n - 2 else n - 1
  }

  /** The ladder walk of b43_nphy_rxcal_gainctrl: `n` readings, the chosen step taken at reading `at`. */
  method Walk(meter: Meter) returns (optimIdx: int, optimPwr: U32, up: bool, n: nat, at: nat)
    ensures Walks(meter, up, n, at)
    ensures at < n && optimIdx == Visit(up, at) && optimPwr == meter(at, optimIdx)
    ensures Monotone(meter) ==> Highest(meter, optimIdx)
  {
    optimPwr, optimIdx := 0, 0;
    var prevPwr: U32 := 0;
    var prevIdx, currIdx := 0, 3;
    var dirn := Init;
    var done := false;
    n, at := 0, 0;
    up := meter(0, 3) <= THRESHOLD;
    while !done
      invariant 0 <= n <= 4
      invariant !done ==> 0 <= currIdx <= MAX_INDEX && currIdx == Visit(up, n)
      invariant n > 0 ==> 0 <= Visit(up, n - 1) <= MAX_INDEX
      invariant dirn == if n == 0 then Init else if up then Up else Down
      invariant !done ==> forall k :: 0 <= k < n ==> (QuietAt(meter, up, k) <==> up)
      invariant forall k :: 0 <= k < n ==> 0 <= Visit(up, k) <= MAX_INDEX
      invariant done ==> Walks(meter, up, n, at)
      invariant n > 0 && !done ==> prevIdx == Visit(up, n - 1) && prevPwr == meter(n - 1, prevIdx)
      invariant done ==> n > 0 && at < n && optimIdx == Visit(up, at) && optimPwr == meter(at, optimIdx)
      decreases !done, 4 - n
    {
      var currPwr := meter(n, currIdx);
      ghost var measured := currIdx;
      n := n + 1;

      match dirn {
        case Init =>
          prevIdx := currIdx;
          if currPwr > THRESHOLD {
            dirn := Down;
            currIdx := currIdx - 1;
          } else {
            dirn := Up;
            currIdx := currIdx + 1;
          }
        case Up =>
          if currPwr > THRESHOLD {
            done := true;
            optimPwr := prevPwr;
            optimIdx := prevIdx;
            at := n - 2;
          } else {
            prevIdx := currIdx;
            currIdx := currIdx + 1;
          }
        case Down =>
          if currPwr > THRESHOLD {
            prevIdx := currIdx;
            currIdx := currIdx - 1;
          } else {
            done := true;
            optimPwr := currPwr;
            optimIdx := currIdx;
            at := n - 1;
          }
      }

      if currIdx < 0 || currIdx > MAX_INDEX {
        done := true;
        optimPwr := currPwr;
        optimIdx := prevIdx;
        at := n - 1;
      } else {
        prevPwr := currPwr;
      }
      if done {
        assert 0 <= Visit(up, n - 1) <= MAX_INDEX;
        assert QuietAt(meter, up, n - 1) <==> currPwr <= THRESHOLD;
      }
    }
    if Monotone(meter) { HighestFound(meter, up, n, at); }
  }

  /** With monotone readings, the readings of a walk fill in the rest of the ladder. */
  lemma HighestFound(meter: Meter, up: bool, n: nat, at: nat)
    requires Monotone(meter) && Walks(meter, up, n, at)
    ensures Highest(meter, Visit(up, at))
  {
    var idx, last := Visit(up, at), n - 1;
    assert 0 <= Visit(up, last) <= MAX_INDEX && 0 <= Visit(up, last - 1) <= MAX_INDEX;
    forall x: int | idx < x <= MAX_INDEX ensures meter(0, x) > THRESHOLD {
      if QuietAt(meter, up, last) {
        assert !QuietAt(meter, up, last - 1);
        assert meter(last - 1, Visit(up, last - 1)) <= meter(0, x);
      } else {
        assert meter(last, Visit(up, last)) <= meter(0, x);
      }
    }
    if idx > 0 {
      assert QuietAt(meter, up, at);
      assert meter(0, idx) <= meter(at, idx);
    }
  }

  // ---------------------------------------------------------------- the trim

  /** fls: the number of bits a value needs. */
  function BitLength(v: nat): (n: nat)
    ensures v > 0 ==> Pow2(n - 1) <= v < Pow2(n)
    ensures v == 0 ==> n == 0
    ensures v > 0 ==> n > 0
  {
    if v == 0 then 0 else
      assert v / 2 > 0 || v == 1;
      BitLength(v / 2) + 1
  }

  function Pow2(n: int): nat {
    if n <= 0 then 1 else 2 * Pow2(n - 1)
  }

  function Distance(x: int, y: int): nat { if x < y then y - x else x - y }

  /** The second stage for a step and the power read there. */
  ghost predicate Trimmed(biq1: nat, idx: nat, optimPwr: U32)
    requires idx <= MAX_INDEX
  {
    && biq1 + LADDER[idx].biq0 <= 10
    && Nearest(biq1, LADDER[idx].biq1 + DESIRED_LOG2 - BitLength(optimPwr), 10 - LADDER[idx].biq0)
  }

  /**
  The second stage ends as near as its range allows to what would bring the
  chosen power to the desired one: the two stages together stay within 10.
  */
  method Trim(idx: nat, optimPwr: U32) returns (biq1: nat)
    requires idx <= MAX_INDEX
    ensures Trimmed(biq1, idx, optimPwr)
  {
    var step := LADDER[idx];
    assert step.biq0 <= 6;
    var delta: int := DESIRED_LOG2 - BitLength(optimPwr);
    var fine: int := step.biq1 + delta;
    if fine + step.biq0 > 10 {
      biq1 := 10 - step.biq0;
    } else {
      biq1 := if fine > 0 then fine else 0;
    }
  }

  /** No value from 0 to `max` is nearer to `wanted` than `b`. */
  ghost predicate Nearest(b: int, wanted: int, max: int) {
    0 <= b <= max && forall other: int :: 0 <= other <= max ==> Distance(b, wanted) <= Distance(other, wanted)
  }

  /** The receive gain word: both filter stages, the fixed mixer gain and both amplifiers, side by side. */
  function GainWord(gain: Gain): (word: nat)
    requires gain.biq1 < 16 && gain.biq0 < 16 && gain.lna2 < 4 && gain.lna1 < 4
    ensures word < 0x10000
  {
    gain.biq1 * 0x1000 + gain.biq0 * 0x100 + MIX_TIA_GAIN * 0x10 + gain.lna2 * 4 + gain.lna1
  }

  /** The word of a ladder step, its second stage trimmed or not: no field reaches into another, each reads back. */
  lemma FieldsDoNotOverlap(idx: nat, biq1: nat)
    requires idx <= MAX_INDEX && biq1 + LADDER[idx].biq0 <= 10
    ensures var gain := LADDER[idx].(biq1 := biq1);
            var w := GainWord(gain);
            && w / 0x1000 == gain.biq1 && w / 0x100 % 0x10 == gain.biq0 && w / 0x10 % 0x10 == 3
            && w / 4 % 4 == gain.lna2 && w % 4 == gain.lna1
  {
    Packed(LADDER[idx].(biq1 := biq1));
  }

  lemma Packed(gain: Gain)
    requires gain.biq1 < 16 && gain.biq0 < 16 && gain.lna2 < 4 && gain.lna1 < 4
    ensures var w := GainWord(gain);
            && w / 0x1000 == gain.biq1 && w / 0x100 % 0x10 == gain.biq0 && w / 0x10 % 0x10 == 3
            && w / 4 % 4 == gain.lna2 && w % 4 == gain.lna1
  {
    var w := GainWord(gain);
    assert w / 0x10 == gain.biq1 * 0x100 + gain.biq0 * 0x10 + MIX_TIA_GAIN;
    assert w / 0x100 == gain.biq1 * 0x10 + gain.biq0;
    assert w / 4 == 4 * (w / 0x10) + gain.lna2;
  }
}
