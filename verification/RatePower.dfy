/**
Power per rate: the SPROM limits of 52 rates, capped and floored in place,
turned into offsets from the strongest rate and spread over the 84 cells of the
hardware's adjusted power table.  All powers are quarter dBm.
*/
module RatePower {

  const RATES := 52
  const OFDM := 4
  const OFDM_CDD := 12
  const MCS := 20
  const MCS_CDD := 28
  const MCS_STBC := 36
  const MCS_SDM := 44

  const CELLS := 84
  const OFFSETS := 101

  type U8 = n: int | 0 <= n < 256

  /** What is left of a number in a byte. */
  function Wrap8(x: int): (b: U8)
    ensures (x - b) % 256 == 0
  {
    x % 256
  }

  function Min(a: int, b: int): int { if a < b then a else b }
  function Max(a: int, b: int): int { if a < b then b else a }

  /** Four-bit field `i` of a word. */
  function Nibble(x: nat, i: nat): (n: nat)
    ensures n < 16
  {
    if i == 0 then x % 16 else Nibble(x / 16, i - 1)
  }

  /** The four fields of a 16-bit word make up the word, each at its place. */
  lemma FourNibbles(x: nat)
    requires x < 0x10000
    ensures x == Nibble(x, 0) + 0x10 * Nibble(x, 1) + 0x100 * Nibble(x, 2) + 0x1000 * Nibble(x, 3)
  {
    var x1 := x / 16;
    var x2 := x1 / 16;
    var x3 := x2 / 16;
    assert Nibble(x, 1) == Nibble(x1, 0) && Nibble(x, 2) == Nibble(x1, 1) == Nibble(x2, 0);
    assert Nibble(x, 3) == Nibble(x1, 2) == Nibble(x2, 1) == Nibble(x3, 0);
    assert x == 16 * x1 + x % 16 && x1 == 16 * x2 + x1 % 16 && x2 == 16 * x3 + x2 % 16 && x3 < 16;
  }

  /** Likewise the eight of a 32-bit word. */
  lemma EightNibbles(x: nat)
    requires x < 0x1_0000_0000
    ensures x == Nibble(x, 0) + 0x10 * Nibble(x, 1) + 0x100 * Nibble(x, 2) + 0x1000 * Nibble(x, 3)
                 + 0x1_0000 * Nibble(x, 4) + 0x10_0000 * Nibble(x, 5) + 0x100_0000 * Nibble(x, 6) + 0x1000_0000 * Nibble(x, 7)
  {
    var low, high := x % 0x10000, x / 0x10000;
    FourNibbles(low);
    FourNibbles(high);
    LowNibbles(x);
    HighNibbles(x);
  }

  lemma LowNibbles(x: nat)
    ensures forall i: nat :: i < 4 ==> Nibble(x % 0x10000, i) == Nibble(x, i)
  {
    var l := x % 0x10000;
    assert x == 0x10000 * (x / 0x10000) + l;
    assert x / 16 == 0x1000 * (x / 0x10000) + l / 16 && x / 16 / 16 == 0x100 * (x / 0x10000) + l / 16 / 16;
    assert x / 16 / 16 / 16 == 0x10 * (x / 0x10000) + l / 16 / 16 / 16;
    Unroll(x);
    Unroll(l);
  }

  lemma Unroll(x: nat)
    ensures Nibble(x, 0) == x % 16 && Nibble(x, 1) == x / 16 % 16
    ensures Nibble(x, 2) == x / 16 / 16 % 16 && Nibble(x, 3) == x / 16 / 16 / 16 % 16
  {
    assert Nibble(x, 2) == Nibble(x / 16, 1) == Nibble(x / 16 / 16, 0);
    assert Nibble(x, 3) == Nibble(x / 16, 2) == Nibble(x / 16 / 16, 1) == Nibble(x / 16 / 16 / 16, 0);
  }

  lemma HighNibbles(x: nat)
    ensures forall i: nat :: i < 4 ==> Nibble(x / 0x10000, i) == Nibble(x, i + 4)
  {
    var y := x / 16 / 16 / 16 / 16;
    assert y == x / 0x10000;
    forall i: nat | i < 4 ensures Nibble(y, i) == Nibble(x, i + 4) {
      assert Nibble(x, i + 4) == Nibble(x / 16, i + 3) == Nibble(x / 16 / 16, i + 2) == Nibble(x / 16 / 16 / 16, i + 1);
    }
  }

  datatype Sprom = Sprom(maxpwr: (U8, U8), cck: nat, ofdm: nat, mcs: seq<nat>, cdd: nat, stbc: nat) {
    predicate Valid() { |mcs| == 8 }

    /** The smaller of the two chains' maxima. */
    function Ceiling(): (c: U8)
      ensures c <= maxpwr.0 && c <= maxpwr.1 && (c == maxpwr.0 || c == maxpwr.1)
    {
      if maxpwr.0 < maxpwr.1 then maxpwr.0 else maxpwr.1
    }
  }

  /** The MCS rate an OFDM rate borrows its two-chain limit from. */
  function CddOfOfdm(i: nat): nat { if i == 0 then 0 else i - 1 }

  /** The OFDM rate an MCS rate on one chain borrows its limit from. */
  function OfdmOfMcs(i: nat): nat { if i == 0 then 0 else if i == 7 then 7 else i + 1 }

  /**
  The limit the SPROM means for a rate, without any wrap: the ceiling, less twice
  the rate's offset nibble, less the extra back-off of its transmission mode.
  `extras` says whether those back-offs apply (N-PHY revision 3 and later).
  */
  function Limit(s: Sprom, extras: bool, r: nat): int
    requires s.Valid() && r < RATES
  {
    if r < OFDM then s.Ceiling() - 2 * Nibble(s.cck, r)
    else if r < OFDM_CDD then s.Ceiling() - 2 * Nibble(s.ofdm, r - OFDM)
    else if r < MCS then CddLimit(s, extras, CddOfOfdm(r - OFDM_CDD))
    else if r < MCS_CDD then s.Ceiling() - 2 * Nibble(s.ofdm, OfdmOfMcs(r - MCS))
    else if r < MCS_STBC then CddLimit(s, extras, r - MCS_CDD)
    else if r < MCS_SDM then
      s.Ceiling() - 2 * Nibble(s.mcs[(r - MCS_STBC) / 4], (r - MCS_STBC) % 4) - (if extras then Nibble(s.stbc, 0) else 0)
    else s.Ceiling() - 2 * Nibble(s.mcs[2 + (r - MCS_SDM) / 4], (r - MCS_SDM) % 4)
  }

  function CddLimit(s: Sprom, extras: bool, i: nat): int
    requires s.Valid() && i < 8
  {
    s.Ceiling() - 2 * Nibble(s.mcs[i / 4], i % 4) - (if extras then Nibble(s.cdd, 0) else 0)
  }

  /** One-chain rates keep 68, two-chain rates 56. */
  function GroupCap(r: nat): int {
    if r < OFDM_CDD || MCS <= r < MCS_CDD then 68 else 56
  }

  /** The power a rate is given: its limit as the byte arithmetic leaves it, capped twice, never below 8 dBm. */
  function Power(s: Sprom, cap: int, r: nat): int
    requires s.Valid() && r < RATES
  {
    Max(32, Min(Min(Wrap8(Limit(s, true, r)), cap), GroupCap(r)))
  }

  /** The power the SPROM and the caps mean for a rate. */
  function MeantPower(s: Sprom, cap: int, r: nat): int
    requires s.Valid() && r < RATES
  {
    Max(32, Min(Min(Limit(s, true, r), cap), GroupCap(r)))
  }

  /**
  The byte subtraction gives the meant power exactly when the SPROM's offsets
  stay below its ceiling, or the regulatory cap is at the floor anyway.
  */
  lemma PowerIsMeantExactly(s: Sprom, cap: int, r: nat)
    requires s.Valid() && r < RATES
    ensures Power(s, cap, r) == MeantPower(s, cap, r) <==> Limit(s, true, r) >= 0 || cap <= 32
  {
    var l := Limit(s, true, r);
    assert -45 <= l < 256;
    assert Wrap8(l) == if l < 0 then l + 256 else l;
  }

  /** Power is bounded whatever the SPROM holds, so an offset between two rates is 0 to 36. */
  lemma PowerRange(s: Sprom, cap: int, r: nat)
    requires s.Valid() && r < RATES
    ensures 32 <= Power(s, cap, r) <= 68
  {
  }

  // ---------------------------------------------------------------- the hardware table

  /** The rate, inside its mode's eight, that group `g` of the table belongs to; `siso` is the OFDM column. */
  const SISO_GROUPS: seq<nat> := [0, 1, 1, 1, 2, 3, 3, 3, 4, 5, 5, 5, 6, 6, 7, 7, 7, 7, 7, 7]
  const MIMO_GROUPS: seq<nat> := [0, 0, 0, 0, 1, 2, 2, 2, 3, 4, 4, 4, 5, 5, 6, 7, 7, 7, 7, 7]

  function Steps(siso: bool, g: nat): nat {
    (if siso && g > 0 then 1 else 0) + (if g > 3 then 1 else 0) + (if g > 4 then 1 else 0) +
    (if g > 7 then 1 else 0) + (if g > 8 then 1 else 0) + (if g > 11 then 1 else 0) +
    (if g > 13 then 1 else 0) + (if !siso && g > 14 then 1 else 0)
  }

  lemma StepsAreGroups(g: nat)
    requires g < 20
    ensures Steps(true, g) == SISO_GROUPS[g] && Steps(false, g) == MIMO_GROUPS[g]
  {
    if g < 10 {
      assert g == 0 || g == 1 || g == 2 || g == 3 || g == 4 || g == 5 || g == 6 || g == 7 || g == 8 || g == 9;
    } else {
      assert g == 10 || g == 11 || g == 12 || g == 13 || g == 14 || g == 15 || g == 16 || g == 17 || g == 18 || g == 19;
    }
  }

  /** The first offset of a mode: SISO, CDD, STBC, SDM; the 40 MHz blocks follow the 52 rates. */
  function ModeBase(mode: nat, wide: bool, rev: nat): nat
    requires mode < 4
  {
    if mode == 0 then (if wide && rev >= 5 then 68 else if wide then 52 else 4)
    else (if wide then 68 else 20) + 8 * mode
  }

  function Siso(mode: nat, wide: bool, rev: nat): bool {
    mode == 0 && !(wide && rev >= 5)
  }

  /** The offset a cell of the table shows. */
  function CellRate(j: nat, wide: bool, rev: nat): (r: nat)
    requires j < CELLS
    ensures r < OFFSETS
  {
    if j < 4 then j
    else
      var mode := (j - 4) % 4;
      ModeBase(mode, wide, rev) + Steps(Siso(mode, wide, rev), (j - 4) / 4)
  }

  /** At 20 MHz every rate that is sent has a cell: CCK, OFDM, and the two-chain MCS modes. */
  lemma EveryRateHasACell(r: nat, rev: nat) returns (j: nat)
    requires r < OFDM_CDD || MCS_CDD <= r < RATES
    ensures j < CELLS && CellRate(j, false, rev) == r
  {
    if r < 4 {
      j := r;
    } else if r < OFDM_CDD {
      var g := if r == 4 then 0 else if r == 5 then 1 else if r == 6 then 4 else if r == 7 then 5
               else if r == 8 then 8 else if r == 9 then 9 else if r == 10 then 12 else 14;
      j := 4 + 4 * g;
    } else {
      var mode, i := (r - 20) / 8, (r - 20) % 8;
      var g := if i == 0 then 0 else if i == 1 then 4 else if i == 2 then 5 else if i == 3 then 8
               else if i == 4 then 9 else if i == 5 then 12 else if i == 6 then 14 else 15;
      j := 4 + 4 * g + mode;
      assert (j - 4) % 4 == mode && (j - 4) / 4 == g;
    }
  }

  // ---------------------------------------------------------------- the shared array

  /** b43_ppr: 52 bytes that every pass changes in place. */
  class Ppr {
    const rates: array<U8>

    constructor ()
      ensures fresh(rates) && rates.Length == RATES
    {
      rates := new U8[RATES](_ => 0);
    }

    method Clear()
      requires rates.Length == RATES
      modifies rates
      ensures forall r :: 0 <= r < RATES ==> rates[r] == 0
    {
      for i := 0 to RATES
        invariant forall r :: 0 <= r < i ==> rates[r] == 0
      {
        rates[i] := 0;
      }
    }

    /** b43_ppr_apply_max_group on rates from..from + num. */
    method ApplyMaxGroup(from: nat, num: nat, max: U8)
      requires rates.Length == RATES && from + num <= RATES
      modifies rates
      ensures forall r :: 0 <= r < RATES ==>
                rates[r] == if from <= r < from + num then Min(old(rates[r]), max) else old(rates[r])
    {
      for i := 0 to num
        invariant forall r :: 0 <= r < RATES ==>
                    rates[r] == if from <= r < from + i then Min(old(rates[r]), max) else old(rates[r])
      {
        if rates[from + i] > max {
          rates[from + i] := max;
        }
      }
    }

    method ApplyMax(max: U8)
      requires rates.Length == RATES
      modifies rates
      ensures forall r :: 0 <= r < RATES ==> rates[r] == Min(old(rates[r]), max)
    {
      for i := 0 to RATES
        invariant forall r :: 0 <= r < RATES ==>
                    rates[r] == if r < i then Min(old(rates[r]), max) else old(rates[r])
      {
        rates[i] := if max < rates[i] then max else rates[i];
      }
    }

    method ApplyMin(min: U8)
      requires rates.Length == RATES
      modifies rates
      ensures forall r :: 0 <= r < RATES ==> rates[r] == Max(old(rates[r]), min)
    {
      for i := 0 to RATES
        invariant forall r :: 0 <= r < RATES ==>
                    rates[r] == if r < i then Max(old(rates[r]), min) else old(rates[r])
      {
        rates[i] := if rates[i] < min then min else rates[i];
      }
    }

    method GetMax() returns (res: U8)
      requires rates.Length == RATES
      ensures forall r :: 0 <= r < RATES ==> rates[r] <= res
      ensures exists r :: 0 <= r < RATES && rates[r] == res
    {
      res := 0;
      ghost var at := 0;
      for i := 0 to RATES
        invariant forall r :: 0 <= r < i ==> rates[r] <= res
        invariant i > 0 ==> 0 <= at < i && rates[at] == res
        invariant i == 0 ==> res == 0
      {
        if res <= rates[i] { at := i; }
        res := if res < rates[i] then rates[i] else res;
      }
    }

    /** One run of offset nibbles: `num` rates from `at`, less `extra` if asked for. */
    method LoadNibbles(at: nat, num: nat, po: nat, maxpwr: U8, extra: nat)
      requires rates.Length == RATES && at + num <= RATES && extra < 16
      modifies rates
      ensures forall r :: 0 <= r < RATES ==>
                rates[r] == if at <= r < at + num then Wrap8(maxpwr - 2 * Nibble(po, r - at) - extra) else old(rates[r])
    {
      for i := 0 to num
        invariant forall r :: 0 <= r < RATES ==>
                    rates[r] == if at <= r < at + i then Wrap8(maxpwr - 2 * Nibble(po, r - at) - extra) else old(rates[r])
      {
        var off := Nibble(po, i) * 2;
        rates[at + i] := Wrap8(maxpwr - off);
        WrapTwice(maxpwr - off, extra);
        rates[at + i] := Wrap8(rates[at + i] - extra);
      }
    }

    /** CCK, OFDM and the one-chain MCS rates, which copy OFDM ones. */
    method LoadOneChain(s: Sprom, extras: bool)
      requires rates.Length == RATES && s.Valid()
      modifies rates
      ensures forall r :: 0 <= r < OFDM_CDD || MCS <= r < MCS_CDD ==> rates[r] == Wrap8(Limit(s, extras, r))
    {
      LoadNibbles(0, 4, s.cck, s.Ceiling(), 0);
      LoadNibbles(OFDM, 8, s.ofdm, s.Ceiling(), 0);
      rates[MCS] := rates[OFDM];
      for i := 1 to 7
        invariant forall r :: 0 <= r < OFDM_CDD ==> rates[r] == Wrap8(Limit(s, extras, r))
        invariant forall r :: MCS <= r < MCS + i ==> rates[r] == Wrap8(Limit(s, extras, r))
      {
        rates[MCS + i] := rates[OFDM + i + 1];
      }
      rates[MCS + 7] := rates[OFDM + 7];
    }

    /** The CDD rates: MCS from the SPROM, OFDM copying them. */
    method LoadCdd(s: Sprom, extras: bool)
      requires rates.Length == RATES && s.Valid()
      modifies rates
      ensures forall r :: 0 <= r < RATES ==>
                rates[r] == if OFDM_CDD <= r < MCS || MCS_CDD <= r < MCS_STBC then Wrap8(Limit(s, extras, r))
                            else old(rates[r])
    {
      hide Wrap8, Nibble;
      var extra := if extras then Nibble(s.cdd, 0) else 0;
      LoadNibbles(MCS_CDD, 4, s.mcs[0], s.Ceiling(), extra);
      LoadNibbles(MCS_CDD + 4, 4, s.mcs[1], s.Ceiling(), extra);
      assert forall r :: MCS_CDD <= r < MCS_STBC ==> rates[r] == Wrap8(CddLimit(s, extras, r - MCS_CDD));
      rates[OFDM_CDD] := rates[MCS_CDD];
      for i := 1 to 8
        invariant forall r :: MCS_CDD <= r < MCS_STBC ==> rates[r] == Wrap8(CddLimit(s, extras, r - MCS_CDD))
        invariant forall r :: OFDM_CDD <= r < OFDM_CDD + i ==>
                    rates[r] == Wrap8(CddLimit(s, extras, CddOfOfdm(r - OFDM_CDD)))
        invariant forall r :: 0 <= r < RATES && !(OFDM_CDD <= r < MCS || MCS_CDD <= r < MCS_STBC) ==>
                    rates[r] == old(rates[r])
      {
        rates[OFDM_CDD + i] := rates[MCS_CDD + i - 1];
      }
    }

    method LoadStbcAndSdm(s: Sprom, extras: bool)
      requires rates.Length == RATES && s.Valid()
      modifies rates
      ensures forall r :: 0 <= r < RATES ==>
                rates[r] == if MCS_STBC <= r then Wrap8(Limit(s, extras, r)) else old(rates[r])
    {
      var extra := if extras then Nibble(s.stbc, 0) else 0;
      LoadNibbles(MCS_STBC, 4, s.mcs[0], s.Ceiling(), extra);
      LoadNibbles(MCS_STBC + 4, 4, s.mcs[1], s.Ceiling(), extra);
      LoadNibbles(MCS_SDM, 4, s.mcs[2], s.Ceiling(), 0);
      LoadNibbles(MCS_SDM + 4, 4, s.mcs[3], s.Ceiling(), 0);
    }

    /** b43_ppr_load_max_from_sprom, 2 GHz. */
    method LoadMaxFromSprom(s: Sprom, extras: bool)
      requires rates.Length == RATES && s.Valid()
      modifies rates
      ensures forall r :: 0 <= r < RATES ==> rates[r] == Wrap8(Limit(s, extras, r))
    {
      LoadOneChain(s, extras);
      LoadCdd(s, extras);
      LoadStbcAndSdm(s, extras);
    }
  }

  lemma WrapTwice(x: int, y: int)
    ensures Wrap8(Wrap8(x) - y) == Wrap8(x - y)
  {
    var q := x / 256;
    assert x == 256 * q + Wrap8(x);
    assert x - y == 256 * q + (Wrap8(x) - y);
    AddMultiple(Wrap8(x) - y, q);
  }

  lemma AddMultiple(x: int, q: int)
    ensures (256 * q + x) % 256 == x % 256
  {
    var y := 256 * q + x;
    assert x == 256 * (x / 256) + x % 256 && y == 256 * (y / 256) + y % 256;
    assert y % 256 - x % 256 == 256 * (q + x / 256 - y / 256);
  }

  // ---------------------------------------------------------------- the recalculation

  /** The regulatory limit and the user's, in quarter dBm, through the byte they are kept in. */
  function RegulatoryCap(maxPower: int, desired: int): (cap: U8)
    ensures 0 <= maxPower < 64 && 0 <= desired < 64 ==>
              && (cap == 4 * maxPower || (desired != 0 && cap == 4 * desired))
              && cap <= 4 * maxPower && (desired != 0 ==> cap <= 4 * desired)
  {
    var max := Wrap8(4 * maxPower);
    if desired != 0 && Wrap8(4 * desired) < max then Wrap8(4 * desired) else max
  }

  class TxPower {
    const ppr: Ppr
    const offset: array<int>      // tx_power_offset
    const adjusted: array<int>    // adj_pwr_tbl
    var target: int               // both chains' target power
    var lastFreq: int             // tx_pwr_last_recalc_freq
    var lastLimit: int            // tx_pwr_last_recalc_limit

    constructor ()
      ensures fresh(ppr) && fresh(ppr.rates) && fresh(offset) && fresh(adjusted)
      ensures Valid()
      ensures forall i :: 0 <= i < OFFSETS ==> offset[i] == 0
    {
      ppr := new Ppr();
      offset := new int[OFFSETS](_ => 0);
      adjusted := new int[CELLS](_ => 0);
      target := 52;
      lastFreq, lastLimit := 0, 0;
    }

    ghost predicate Valid()
      reads this
    {
      && ppr.rates.Length == RATES && offset.Length == OFFSETS && adjusted.Length == CELLS
      && offset != adjusted
    }

    /** b43_nphy_tx_prepare_adjusted_power_table: every cell is written, from an offset that exists. */
    method PrepareAdjustedPowerTable(wide: bool, rev: nat)
      requires Valid()
      modifies adjusted
      ensures forall j :: 0 <= j < CELLS ==> adjusted[j] == offset[CellRate(j, wide, rev)]
    {
      for i := 0 to 4
        invariant forall j :: 0 <= j < i ==> adjusted[j] == offset[j]
      {
        adjusted[i] := offset[i];
      }
      for mode := 0 to 4
        invariant forall j :: 0 <= j < CELLS && (j < 4 || (j - 4) % 4 < mode) ==>
                    adjusted[j] == offset[CellRate(j, wide, rev)]
      {
        FillMode(mode, wide, rev);
      }
    }

    method FillMode(mode: nat, wide: bool, rev: nat)
      requires Valid() && mode < 4
      modifies adjusted
      ensures forall j :: 0 <= j < CELLS && (j < 4 || (j - 4) % 4 != mode) ==> adjusted[j] == old(adjusted[j])
      ensures forall j :: 4 <= j < CELLS && (j - 4) % 4 == mode ==> adjusted[j] == offset[CellRate(j, wide, rev)]
    {
      var delta := 0;
      var idx;
      if mode == 0 {
        if wide && rev >= 5 {
          idx := 68;
        } else {
          delta := 1;
          idx := if wide then 52 else 4;
        }
      } else if mode == 1 {
        idx := if wide then 76 else 28;
      } else if mode == 2 {
        idx := if wide then 84 else 36;
      } else {
        idx := if wide then 92 else 44;
      }
      var i := 0;
      while i < 20
        invariant 0 <= i <= 20
        invariant i < 20 ==> idx == ModeBase(mode, wide, rev) + Steps(Siso(mode, wide, rev), i)
        invariant forall j :: 0 <= j < CELLS && (j < 4 || (j - 4) % 4 != mode) ==> adjusted[j] == old(adjusted[j])
        invariant forall j :: 4 <= j < 4 + 4 * i && (j - 4) % 4 == mode ==> adjusted[j] == offset[CellRate(j, wide, rev)]
      {
        var cell := 4 + 4 * i + mode;
        assert (cell - 4) % 4 == mode && (cell - 4) / 4 == i;
        adjusted[cell] := offset[idx];
        if i == 0 { idx := idx + delta; }
        if i == 14 { idx := idx + 1 - delta; }
        if i == 3 || i == 4 || i == 7 || i == 8 || i == 11 || i == 13 { idx := idx + 1; }
        i := i + 1;
      }
    }

    /** 68 for the rates of one chain, 56 for those of both. */
    method CapGroups()
      requires Valid()
      modifies ppr.rates
      ensures forall r :: 0 <= r < RATES ==> ppr.rates[r] as int == Min(old(ppr.rates[r]) as int, GroupCap(r))
    {
      ppr.ApplyMaxGroup(0, 4, 68);
      ppr.ApplyMaxGroup(OFDM, 8, 68);
      ppr.ApplyMaxGroup(MCS, 8, 68);
      ppr.ApplyMaxGroup(OFDM_CDD, 8, 56);
      ppr.ApplyMaxGroup(MCS_CDD, 8, 56);
      ppr.ApplyMaxGroup(MCS_STBC, 8, 56);
      ppr.ApplyMaxGroup(MCS_SDM, 8, 56);
    }

    /** The limits, caps and floor, in the order the driver applies them: every rate at its power. */
    method LimitRates(s: Sprom, cap: U8)
      requires Valid() && s.Valid()
      modifies ppr.rates
      ensures forall r :: 0 <= r < RATES ==> ppr.rates[r] == Power(s, cap, r)
    {
      ppr.Clear();
      ppr.LoadMaxFromSprom(s, true);
      ppr.ApplyMax(cap);
      CapGroups();
      ppr.ApplyMin(32);
    }

    /**
    b43_nphy_op_recalc_txpower and the part of the power control setup it feeds,
    for radio 2057 rev 8 on 2 GHz at 20 MHz: for every cell, the programmed
    target less the cell is exactly the power of the cell's rate, and the cell
    is a small offset that fits a signed byte.  On the channel and the limit of
    the last call it does nothing, whatever the channel's own maximum is by now.
    */
    method RecalcTxpower(s: Sprom, freq: int, maxPower: int, desired: int) returns (skipped: bool)
      requires Valid() && s.Valid()
      modifies this, ppr.rates, offset, adjusted
      ensures skipped <==> old(lastFreq) == freq && old(lastLimit) == desired
      ensures skipped ==> unchanged(this) && unchanged(ppr.rates) && unchanged(offset) && unchanged(adjusted)
      ensures lastFreq == freq && lastLimit == desired
      ensures !skipped ==> Programmed(s, RegulatoryCap(maxPower, desired))
      ensures !skipped && 0 <= maxPower < 64 && 0 <= desired < 64 ==>
                && (Programmed(s, 4 * maxPower) || (desired != 0 && Programmed(s, 4 * desired)))
                && forall j :: 0 <= j < CELLS ==>
                     && target - adjusted[j] <= (if maxPower <= 8 then 32 else 4 * maxPower)
                     && (desired != 0 ==> target - adjusted[j] <= if desired <= 8 then 32 else 4 * desired)
    {
      skipped := lastFreq == freq && lastLimit == desired;
      if !skipped {
        Program(s, RegulatoryCap(maxPower, desired));
        lastFreq := freq;
        lastLimit := desired;
      }
    }

    /** Every cell gives its rate the power it has under this cap. */
    ghost predicate Programmed(s: Sprom, cap: U8)
      requires Valid() && s.Valid()
      reads this, adjusted
    {
      && (forall j :: 0 <= j < CELLS ==>
            target - adjusted[j] == Power(s, cap, CellRate(j, false, 8)) && 0 <= adjusted[j] <= 36)
      && 32 <= target <= 68
      && exists r :: 0 <= r < RATES && target == Power(s, cap, r)
    }

    method Program(s: Sprom, cap: U8)
      requires Valid() && s.Valid()
      modifies this`target, ppr.rates, offset, adjusted
      ensures Programmed(s, cap)
    {
      LimitRates(s, cap);
      var max := ppr.GetMax();
      for i := 0 to RATES
        invariant forall r :: 0 <= r < i ==> offset[r] == max as int - ppr.rates[r] as int
        invariant forall r :: 0 <= r < RATES ==> ppr.rates[r] == Power(s, cap, r)
      {
        offset[i] := max as int - ppr.rates[i] as int;
      }
      if max != 0 { target := max; }
      PrepareAdjustedPowerTable(false, 8);
      forall j | 0 <= j < CELLS
        ensures target - adjusted[j] == Power(s, cap, CellRate(j, false, 8)) && 0 <= adjusted[j] <= 36
      {
        assert CellRate(j, false, 8) < RATES;
        PowerRange(s, cap, CellRate(j, false, 8));
      }
    }
  }
}
