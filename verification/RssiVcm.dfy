/**
The RSSI calibration of one core: poll two rails at each of eight common mode
voltages, keep the voltage whose readings are nearest to zero, and program an
offset that cancels what is left.
*/
module RssiVcm {

  const VOLTAGES := 8
  const SAMPLES := 8
  const MIND_START := 0x100000
  const MINPOLL_START := 249
  const SATURATED := 248

  /** Six bits as the driver decodes them: shift up inside a signed byte, shift back. */
  function Decode6(bits: nat): int {
    var low := bits % 64;
    var shifted := low * 4;
    var asS8 := if shifted >= 128 then shifted - 256 else shifted;
    FloorShift2(asS8)
  }

  function FloorShift2(x: int): int {
    x / 4
  }

  function Encode6(v: int): nat
    requires -32 <= v < 32
  {
    if v < 0 then v + 64 else v
  }

  /** The decoding is six-bit two's complement, and ignores the bits above. */
  lemma Decode6IsTwosComplement(v: int, above: nat)
    requires -32 <= v < 32
    ensures Decode6(Encode6(v) + 64 * above) == v
    ensures -32 <= Decode6(above) < 32
  {
    assert (Encode6(v) + 64 * above) % 64 == Encode6(v);
  }

  /** A sum of polls, each in -32..31. */
  function Total(samples: seq<nat>, shift: nat): int
    requires shift == 0 || shift == 8
  {
    if samples == [] then 0
    else Total(samples[..|samples| - 1], shift) +
         Decode6(if shift == 0 then samples[|samples| - 1] else samples[|samples| - 1] / 256)
  }

  lemma {:induction false} TotalRange(samples: seq<nat>, shift: nat)
    requires shift == 0 || shift == 8
    ensures -32 * |samples| <= Total(samples, shift) <= 31 * |samples|
  {
    if samples != [] {
      TotalRange(samples[..|samples| - 1], shift);
      Decode6IsTwosComplement(0, if shift == 0 then samples[|samples| - 1] else samples[|samples| - 1] / 256);
    }
  }

  /** b43_nphy_poll_rssi's sums: the low and the high six bits of each register. */
  method PollRssi(samples: seq<nat>) returns (low: int, high: int)
    ensures low == Total(samples, 0) && high == Total(samples, 8)
    ensures -32 * |samples| <= low <= 31 * |samples| && -32 * |samples| <= high <= 31 * |samples|
  {
    low, high := 0, 0;
    for i := 0 to |samples|
      invariant low == Total(samples[..i], 0) && high == Total(samples[..i], 8)
    {
      assert samples[..i + 1][..i] == samples[..i];
      low := low + Decode6(samples[i]);
      high := high + Decode6(samples[i] / 256);
    }
    assert samples[..|samples|] == samples;
    TotalRange(samples, 0);
    TotalRange(samples, 8);
  }

  /** What eight polls of a core's two rails can be. */
  datatype Rails = Rails(i: int, q: int) {
    predicate Possible() {
      -32 * SAMPLES <= i <= 31 * SAMPLES && -32 * SAMPLES <= q <= 31 * SAMPLES
    }

    function Distance(): nat {
      Square(i) + Square(q)
    }
  }

  /** The polls of a core, voltage by voltage. */
  type Polls = s: seq<Rails> | |s| == VOLTAGES && forall v :: 0 <= v < VOLTAGES ==> s[v].Possible()
    witness seq(VOLTAGES, _ => Rails(0, 0))

  /** The first voltage whose readings are nearest to zero. */
  ghost predicate Best(results: Polls, vcm: nat) {
    && vcm < VOLTAGES
    && (forall v :: 0 <= v < VOLTAGES ==> results[vcm].Distance() <= results[v].Distance())
    && (forall v :: 0 <= v < vcm ==> results[vcm].Distance() < results[v].Distance())
  }

  function Square(x: int): (s: nat)
    ensures -256 <= x <= 256 ==> s <= 65536
  {
    if -256 <= x <= 256 then
      assert x * x <= 65536 by { SquareBound(x); }
      SquareNat(x)
    else SquareNat(x)
  }

  function SquareNat(x: int): (s: nat)
    ensures s == x * x
  {
    assert x * x >= 0;
    x * x
  }

  lemma SquareBound(x: int)
    requires -256 <= x <= 256
    ensures x * x <= 65536
  {
    if x >= 0 { assert x * x <= 256 * x; } else { assert (-x) * (-x) <= 256 * (-x); }
  }

  /**
  The search over the voltages: the chosen one is the first that minimises
  i^2 + q^2 (the initial bound never wins), and the minimum poll is the least
  reading of the first rail (its initial bound never wins either).
  */
  method ChooseVcm(results: Polls) returns (vcm: nat, minpoll: int)
    ensures Best(results, vcm)
    ensures forall v :: 0 <= v < VOLTAGES ==> minpoll <= results[v].i
    ensures exists v :: 0 <= v < VOLTAGES && minpoll == results[v].i
    ensures minpoll == SATURATED <==> forall v :: 0 <= v < VOLTAGES ==> results[v].i == SATURATED
  {
    var mind := MIND_START;
    minpoll := MINPOLL_START;
    vcm := 0;
    for v := 0 to VOLTAGES
      invariant v == 0 ==> mind == MIND_START && minpoll == MINPOLL_START
      invariant v > 0 ==> vcm < v && mind == results[vcm].Distance()
      invariant v > 0 ==> exists k :: 0 <= k < v && minpoll == results[k].i
      invariant forall k :: 0 <= k < v ==> mind <= results[k].Distance() && minpoll <= results[k].i
      invariant vcm == 0 || vcm < v
      invariant forall k :: 0 <= k < vcm ==> mind < results[k].Distance()
    {
      assert results[v].Possible();
      var currd := results[v].Distance();
      assert currd <= 2 * 65536 < MIND_START;
      if currd < mind {
        mind := currd;
        vcm := v;
      }
      if results[v].i < minpoll {
        minpoll := results[v].i;
      }
    }
  }

  // ---------------------------------------------------------------- the offset

  /** The offset arithmetic: negate, divide by eight with four added in magnitude. */
  function RawOffset(result: int): int {
    var o := -result;
    if o < 0 then -((-o + 4) / 8) else (o + 4) / 8
  }

  function Clamp(x: int): int {
    if x < -32 then -32 else if x > 31 then 31 else x
  }

  /** The programmed offset of a rail; only the first rail looks at the minimum poll. */
  function Offset(result: int, firstRail: bool, minpoll: int): int {
    Clamp(if firstRail && minpoll == SATURATED then -32 else RawOffset(result))
  }

  function Magnitude(x: int): nat { if x < 0 then -x else x }

  /** The raw offset is -result / 8 rounded to the nearest, halves away from zero. */
  lemma RawOffsetRounds(result: int)
    ensures var o := RawOffset(result);
            && 2 * Magnitude(8 * o + result) <= 8
            && (2 * Magnitude(8 * o + result) == 8 ==> Magnitude(8 * o) > Magnitude(result))
            && (o != 0 ==> (o < 0 <==> result > 0))
  {
  }

  /** Over what a poll can be, saturation is reached only at the very bottom, and only by one. */
  lemma SaturatesExactly(result: int, minpoll: int)
    requires -32 * SAMPLES <= result <= 31 * SAMPLES
    ensures Offset(result, false, minpoll) == if result <= -252 then 31 else RawOffset(result)
    ensures minpoll != SATURATED ==> Offset(result, true, minpoll) == Offset(result, false, minpoll)
    ensures minpoll == SATURATED ==> Offset(result, true, minpoll) == -32
  {
  }

  /** What the register's six bits say is the offset that was meant. */
  lemma ProgrammedOffset(result: int, firstRail: bool, minpoll: int)
    ensures var o := Offset(result, firstRail, minpoll);
            -32 <= o < 32 && Decode6(Encode6(o)) == o
  {
    Decode6IsTwosComplement(Offset(result, firstRail, minpoll), 0);
  }

  /**
  The offsets a voltage's readings call for: the negated reading over eight, but
  -32 on the first rail if it reads the most it can at every voltage.
  */
  ghost predicate Cancels(results: Polls, vcm: nat, regI: nat, regQ: nat)
    requires vcm < VOLTAGES
  {
    && Decode6(regI) == (if forall v :: 0 <= v < VOLTAGES ==> results[v].i == SATURATED then -32
                         else Clamp(RawOffset(results[vcm].i)))
    && Decode6(regQ) == Clamp(RawOffset(results[vcm].q))
  }

  /** One core of b43_nphy_rev3_rssi_cal: the voltage it settles on and the two register values it writes. */
  method CalibrateCore(results: Polls) returns (vcm: nat, regI: nat, regQ: nat)
    ensures Best(results, vcm) && Cancels(results, vcm, regI, regQ)
  {
    var minpoll;
    vcm, minpoll := ChooseVcm(results);
    var offset := -results[vcm].i;
    if offset < 0 {
      offset := -((-offset + 4) / 8);
    } else {
      offset := (offset + 4) / 8;
    }
    if minpoll == SATURATED {
      offset := -32;
    }
    regI := Encode6(Clamp(offset));
    Decode6IsTwosComplement(Clamp(offset), 0);
    offset := -results[vcm].q;
    if offset < 0 {
      offset := -((-offset + 4) / 8);
    } else {
      offset := (offset + 4) / 8;
    }
    regQ := Encode6(Clamp(offset));
    Decode6IsTwosComplement(Clamp(offset), 0);
  }

  // ---------------------------------------------------------------- the wide-band detectors

  /** What the two wide-band detectors are meant to read. */
  const WIDE_TARGET := 232

  type Readable = r: Rails | r.Possible() witness Rails(0, 0)

  /** The offsets of a wide-band detector: both rails get the one the first rail's reading calls for. */
  ghost predicate FollowsFirst(rails: Rails, regs: (nat, nat)) {
    Decode6(regs.0) == Decode6(regs.1) == Clamp(RawOffset(rails.i - WIDE_TARGET))
  }

  /** One detector of one core in b43_nphy_rev3_rssi_cal: what it writes for its two rails, one after the other. */
  method CalibrateWide(rails: Readable) returns (regs: (nat, nat))
    ensures FollowsFirst(rails, regs)
  {
    regs := (0, 0);
    var offset := new int[2];
    for j := 0 to 2
      invariant j > 0 ==> offset[0] == RawOffset(rails.i - WIDE_TARGET)
      invariant j > 0 ==> regs.0 == Encode6(Clamp(RawOffset(rails.i - WIDE_TARGET)))
      invariant j > 1 ==> regs.1 == regs.0
    {
      offset[j] := WIDE_TARGET - (if j == 0 then rails.i else rails.q);
      if offset[j] < 0 {
        offset[j] := -((-offset[j] + 4) / 8);
      } else {
        offset[j] := (offset[j] + 4) / 8;
      }
      var reg := Encode6(Clamp(offset[0]));
      regs := if j == 0 then (reg, regs.1) else (regs.0, reg);
    }
    Decode6IsTwosComplement(Clamp(offset[0]), 0);
  }

  /**
  Readings that are corrected alike: the far-off ones, the steps of eight that
  reach up to the target, and the three intervals around and above it.
  */
  predicate Alike(i: int, q: int) {
    || (i <= -12 && q <= -12)
    || (-11 <= i <= 228 && -11 <= q <= 228 && (i + 11) / 8 == (q + 11) / 8)
    || (229 <= i <= 235 && 229 <= q <= 235)
    || (236 <= i <= 243 && 236 <= q <= 243)
    || (244 <= i && 244 <= q)
  }

  /**
  So the second rail gets its own offset exactly when both readings fall in the
  same interval: its own reading is polled and worked out, and then not used.
  */
  lemma SecondRailExactly(rails: Readable, regs: (nat, nat))
    requires FollowsFirst(rails, regs)
    ensures Decode6(regs.1) == Clamp(RawOffset(rails.q - WIDE_TARGET)) <==> Alike(rails.i, rails.q)
  {
  }

  /** A first rail that reads its target leaves the second uncorrected, whatever it reads. */
  lemma SecondRailIgnored(regs: (nat, nat))
    requires FollowsFirst(Rails(WIDE_TARGET, 0), regs)
    ensures Decode6(regs.1) == 0 && Clamp(RawOffset(0 - WIDE_TARGET)) == 29
  {
  }

  /** The registers of a core: the voltage, and the offsets of both rails of its three detectors. */
  datatype Registers = Registers(vcm: nat, narrow: (nat, nat), wide1: (nat, nat), wide2: (nat, nat))

  /** What a core's detectors will read: the narrow-band one at every voltage, the wide-band ones once each. */
  datatype Readings = Readings(narrow: Polls, wide1: Readable, wide2: Readable)

  /** The first best voltage with the offsets it calls for, and the wide-band offsets of the first rails. */
  ghost predicate Calibrates(readings: Readings, regs: Registers) {
    && Best(readings.narrow, regs.vcm) && Cancels(readings.narrow, regs.vcm, regs.narrow.0, regs.narrow.1)
    && FollowsFirst(readings.wide1, regs.wide1) && FollowsFirst(readings.wide2, regs.wide2)
  }
}
