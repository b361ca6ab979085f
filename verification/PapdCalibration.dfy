/**
The PAPD calibration: one core at a time, borrow the RF control overrides, the
AFE registers, the coupler and the baseband multiplier, let the engine run, and
give everything back.  What the engine measures is an oracle.
*/
module PapdCalibration {
  import opened Pairs
  import opened RfOverride
  import opened NPhy
  import CS = CarrierSearch
  import SP = SamplePlayback
  import PapdSearch
  import ForcedIndex
  import TxGains

  /** nphy_papd_restore_state. */
  datatype State = State(afectl: Pair<Bits>, afeover: Pair<Bits>, pwrup: Pair<nat>, atten: Pair<nat>, bbmult: SP.Mult)

  /** The enable bits the calibration of a core sets and its cleanup clears, by group. */
  const BITS0: Bits := {2, 3, 11, 12, 13}
  const BITS1: Bits := {0, 1, 2, 3, 4, 5, 7, 8, 9, 10, 11}
  const BITS2: Bits := {0, 1, 2}

  function Without(p: Pair<Bits>, bits: Bits): Pair<Bits> {
    Pair(p.c0 - bits, p.c1 - bits)
  }

  /** Every bit the calibration can set is off, every other bit as it was, in all six registers. */
  function GivenBack(en: Enables): Enables {
    Enables(Without(en.o0, BITS0), Without(en.o1, BITS1), Without(en.o2, BITS2))
  }

  lemma GivenBackTwice(en: Enables)
    ensures GivenBack(GivenBack(en)) == GivenBack(en)
  {
    WithoutTwice(en.o0, BITS0);
    WithoutTwice(en.o1, BITS1);
    WithoutTwice(en.o2, BITS2);
  }

  lemma WithoutTwice(p: Pair<Bits>, bits: Bits)
    ensures Without(Without(p, bits), bits) == Without(p, bits)
  {
    assert (p.c0 - bits) - bits == p.c0 - bits && (p.c1 - bits) - bits == p.c1 - bits;
  }

  // ---------------------------------------------------------------- what the setup asks of the radio

  /** The five fields of the transmit power-up command. */
  function PowerUp(value: nat): set<Setting> {
    {Setting(0x4, 0, value), Setting(0x2, 1, value), Setting(0x1, 2, value), Setting(0x4, 2, value), Setting(0x800, 1, 1)}
  }

  /** The core that is measured transmits, without mixer gain, and receives what comes back. */
  const RECEIVE: set<Setting> :=
    {Setting(0x800, 0, 0), Setting(0x4, 1, 1), Setting(0x1, 1, 0), Setting(0x2, 2, 1), Setting(0x100, 1, 0)}
  const LOOP: set<Setting> :=
    {Setting(0x200, 1, 1), Setting(0x400, 1, 0), Setting(0x8, 1, 1), Setting(0x20, 1, 0), Setting(0x10, 1, 0)}

  /** Both cores keep the low-pass bandwidth of the channel. */
  function Bandwidth(lpf: nat): set<Setting> {
    {Setting(0x80, 1, lpf)}
  }

  ghost predicate BothCarry(vals: Registers, lpf: nat, core: nat)
    requires core < 2
  {
    && CarriesAll(vals, core, Bandwidth(lpf) + PowerUp(1) + RECEIVE + LOOP)
    && CarriesAll(vals, 1 - core, Bandwidth(lpf) + PowerUp(0))
  }

  /** The core's converter is driven by the calibration and its coupler open, the other core's not. */
  ghost predicate Coupled(p: Phy, core: nat)
    requires core < 2
    reads p`afectl, p`afeover, p`pwrup, p`atten
  {
    && 2 !in p.afectl.Get(core) && 2 in p.afectl.Get(1 - core) && 2 in p.afeover.c0 && 2 in p.afeover.c1
    && p.pwrup.Get(core) == 0xC && p.atten.Get(core) == 0xF0
    && p.pwrup.Get(1 - core) == 0 && p.atten.Get(1 - core) == 0xFF
  }

  /** The radio of both cores is set up for a measurement of one, and the other one's transmitter is down. */
  ghost predicate SetUp(p: Phy, core: nat)
    requires core < 2
    reads p`en, p`vals
  {
    && BothCarry(p.vals, p.ReadLpfCtl(), core)
    && {2, 11} <= p.en.o0.Get(core) && {0, 1, 2, 3, 4, 5, 7, 8, 9, 10, 11} <= p.en.o1.Get(core) && {0, 1, 2} <= p.en.o2.Get(core)
    && {2} <= p.en.o0.Get(1 - core) && {1, 7, 11} <= p.en.o1.Get(1 - core) && {0, 2} <= p.en.o2.Get(1 - core)
  }

  // ---------------------------------------------------------------- one run of the engine

  /** What a run leaves of the first group's enable registers: transmit gain released, bit 3 taken on both cores. */
  function Ran(p: Pair<Bits>): Pair<Bits> {
    Pair(p.c0 - {12, 13} + {3}, p.c1 - {12, 13} + {3})
  }

  /** Both halves of the baseband multiplier during a run: silence on the core that is not measured. */
  function ToneMult(wide: bool, core: nat): SP.Mult {
    Pair(0, 0).Set(core, if wide then 45 else 64)
  }

  /** The comparison on for one core and off for the other, nothing else of the registers changed. */
  function Compares(en: Pair<PapdEn>, core: nat): Pair<PapdEn> {
    Pair(en.c0.(compare := core == 0), en.c1.(compare := core == 1))
  }

  /** Likewise on for both. */
  function BothCompare(en: Pair<PapdEn>): Pair<PapdEn> {
    Pair(en.c0.(compare := true), en.c1.(compare := true))
  }

  /** The comparison goes on for one core and off for the other. */
  method Compare(p: Phy, core: nat)
    requires core < 2
    modifies p`papdEn, p`calShift
    ensures p.papdEn == Compares(old(p.papdEn), core)
    ensures p.calShift == Pair(core == 0, core == 1)
  {
    p.papdEn := p.papdEn.Set(core, p.papdEn.Get(core).(compare := true));
    p.papdEn := p.papdEn.Set(1 - core, p.papdEn.Get(1 - core).(compare := false));
    p.calShift := p.calShift.Set(core, true);
    p.calShift := p.calShift.Set(1 - core, false);
  }

  /** Override 0x8 of the first group, which leaves the gain overrides alone. */
  method Internal(p: Phy, value: nat, core: nat)
    requires value < 2
    modifies p`en, p`vals
    ensures p.en == Overridden(old(p.en), 0x8, core, false, 0) && p.vals == Valued(old(p.vals), 0x8, value, core, false, 0)
    ensures forall i, word :: 0 <= i < 2 && TxGainIs(old(p.vals), i, word) ==> TxGainIs(p.vals, i, word)
  {
    p.OverrideRegisters(0x8, value, core, false, 0);
    Elsewhere(old(p.vals), 0x8, value, core, 0x07C);
    Elsewhere(old(p.vals), 0x8, value, core, 0x07F);
    Elsewhere(old(p.vals), 0x8, value, core, 0x348);
    Elsewhere(old(p.vals), 0x8, value, core, 0x349);
  }

  /** The gain word to measure; with power control off its other fields are those of the core's gain cell. */
  ghost predicate Calls(ctrl: bool, cell: int, padGain: nat, txgain: nat) {
    && TxGains.Unpack(txgain).pad == padGain
    && (!ctrl ==> TxGains.Unpack(txgain) == TxGains.Unpack(Half(cell)).(pad := padGain))
  }

  /**
  The engine's sweep.  It needs the radio and the coupler set up, override 0x8 up
  on the core and down on the other, the gain override on for the core, with the
  gain word to be measured, which is the core's own but for the pad gain, the
  tone on that core only, and the comparison on there only.
  */
  method Engine(p: Phy, core: nat, padGain: nat, gainCtrl: bool, ghost txgain: nat)
    requires core < 2 && {3, 12, 13} <= p.en.o0.Get(core) && 3 in p.en.o0.Get(1 - core)
    requires SetUp(p, core) && Carries(p.vals, 0x8, 0, core, 1) && Carries(p.vals, 0x8, 0, 1 - core, 0)
    requires Coupled(p, core) && TxGainIs(p.vals, core, txgain) && Calls(p.power.ctrl, p.chains.rad.Get(core), padGain, txgain)
    requires p.chains.m87 == p.chains.m95 == ToneMult(p.wide, core)
    requires p.papdEn.Get(core).compare && !p.papdEn.Get(1 - core).compare && p.calShift == Pair(core == 0, core == 1)
    requires !p.bbcfg.rstrx && p.playing
    modifies p`swept
    ensures p.swept == old(p.swept) + [Sweeping(core, padGain, gainCtrl)]
  {
    p.swept := p.swept + [Sweeping(core, padGain, gainCtrl)];
  }

  /** The settings of both cores survive override 0x8 and the transmit gain overrides, on and off. */
  lemma SettingsStay(vals: Registers, lpf: nat, field: nat, value: nat, sel: nat, off: bool, core: nat)
    requires core < 2 && field in {0x8, 0x1000, 0x2000} && (!off ==> Fits(field, 0, value)) && BothCarry(vals, lpf, core)
    ensures BothCarry(Valued(vals, field, value, sel, off, 0), lpf, core)
  {
    hide Valued, CarriesAll;
    ValuedKeepsAll(vals, field, value, sel, off, 0, core, Bandwidth(lpf) + PowerUp(1) + RECEIVE + LOOP);
    ValuedKeepsAll(vals, field, value, sel, off, 0, 1 - core, Bandwidth(lpf) + PowerUp(0));
  }

  method RaiseInternal(p: Phy, core: nat, ghost txgain: nat)
    requires core < 2 && SetUp(p, core) && TxGainIs(p.vals, core, txgain)
    modifies p`en, p`vals
    ensures p.en == old(p.en).(o0 := Pair(old(p.en).o0.c0 + {3}, old(p.en).o0.c1 + {3}))
    ensures SetUp(p, core) && TxGainIs(p.vals, core, txgain)
    ensures Carries(p.vals, 0x8, 0, core, 1) && Carries(p.vals, 0x8, 0, 1 - core, 0)
  {
    hide Valued, BothCarry, Carries;
    SettingsStay(p.vals, p.ReadLpfCtl(), 0x8, 1, OnCore(core), false, core);
    InternalReads(p.vals, core);
    Internal(p, 1, OnCore(core));
    SettingsStay(p.vals, p.ReadLpfCtl(), 0x8, 0, OnCore(1 - core), false, core);
    Internal(p, 0, OnCore(1 - core));
  }

  lemma InternalReads(vals: Registers, core: nat)
    requires core < 2
    ensures var after := Valued(Valued(vals, 0x8, 1, OnCore(core), false, 0), 0x8, 0, OnCore(1 - core), false, 0);
            Carries(after, 0x8, 0, core, 1) && Carries(after, 0x8, 0, 1 - core, 0)
  {
    var first := Valued(vals, 0x8, 1, OnCore(core), false, 0);
    ValueReadsBack(vals, 0x8, 1, OnCore(core), false, 0, core);
    ValueReadsBack(first, 0x8, 0, OnCore(1 - core), false, 0, 1 - core);
    SidesDiffer(0x8, 0, 0x8, 0, core);
  }

  lemma InternalDown(vals: Registers)
    ensures var after := Valued(vals, 0x8, 0, 0x3, false, 0);
            Carries(after, 0x8, 0, 0, 0) && Carries(after, 0x8, 0, 1, 0)
  {
    ValueReadsBack(vals, 0x8, 0, 0x3, false, 0, 0);
    ValueReadsBack(vals, 0x8, 0, 0x3, false, 0, 1);
  }

  /** The sweep, with override 0x8 up on the core and down on the other, then down on both. */
  method Sweep(p: Phy, core: nat, padGain: nat, gainCtrl: bool, ghost txgain: nat)
    requires core < 2 && {12, 13} <= p.en.o0.Get(core) && SetUp(p, core)
    requires Coupled(p, core) && TxGainIs(p.vals, core, txgain) && Calls(p.power.ctrl, p.chains.rad.Get(core), padGain, txgain)
    requires p.chains.m87 == p.chains.m95 == ToneMult(p.wide, core)
    requires p.papdEn.Get(core).compare && !p.papdEn.Get(1 - core).compare && p.calShift == Pair(core == 0, core == 1)
    requires !p.bbcfg.rstrx && p.playing
    modifies p`en, p`vals, p`swept
    ensures p.en == old(p.en).(o0 := Pair(old(p.en).o0.c0 + {3}, old(p.en).o0.c1 + {3}))
    ensures p.swept == old(p.swept) + [Sweeping(core, padGain, gainCtrl)] && SetUp(p, core)
    ensures Carries(p.vals, 0x8, 0, 0, 0) && Carries(p.vals, 0x8, 0, 1, 0)
  {
    hide Valued, BothCarry, Carries;
    RaiseInternal(p, core, txgain);
    Engine(p, core, padGain, gainCtrl, txgain);
    SettingsStay(p.vals, p.ReadLpfCtl(), 0x8, 0, 0x3, false, core);
    InternalDown(p.vals);
    Internal(p, 0, 0x3);
    ghost var a, b := old(p.en).o0.c0, old(p.en).o0.c1;
    assert a + {3} + {3} == a + {3} && b + {3} + {3} == b + {3};
  }

  /** The transmit gain override, which leaves the settings alone. */
  method OverrideGain(p: Phy, txgain: nat, sel: nat, off: bool, ghost core: nat)
    requires core < 2 && txgain < 0x10000 && SetUp(p, core)
    modifies p`en, p`vals
    ensures p.en == Overridden(Overridden(old(p.en), 0x1000, sel, off, 0), 0x2000, sel, off, 0)
    ensures !off ==> forall i :: 0 <= i < 2 && Selects(sel, i) ==> TxGainIs(p.vals, i, txgain)
    ensures SetUp(p, core)
  {
    hide Valued, BothCarry, Carries;
    SettingsStay(p.vals, p.ReadLpfCtl(), 0x1000, txgain % 0x8000, sel, off, core);
    SettingsStay(Valued(p.vals, 0x1000, txgain % 0x8000, sel, off, 0), p.ReadLpfCtl(), 0x2000, txgain / 0x8000 * 2, sel, off, core);
    p.OverrideTxGain(txgain, sel, off);
  }

  /** Everything a run needs before its sweep: the gain, the tone on one core, the comparison there. */
  method Aim(p: Phy, core: nat, txgain: nat)
    requires core < 2 && txgain < 0x10000 && SetUp(p, core)
    modifies p`en, p`vals, p`chains, p`papdEn, p`calShift
    ensures SetUp(p, core)
    ensures p.en == Overridden(Overridden(old(p.en), 0x1000, OnCore(core), false, 0), 0x2000, OnCore(core), false, 0)
    ensures TxGainIs(p.vals, core, txgain)
    ensures p.chains == old(p.chains).(m87 := ToneMult(p.wide, core), m95 := ToneMult(p.wide, core))
    ensures p.calShift == Pair(core == 0, core == 1) && p.papdEn == Compares(old(p.papdEn), core)
  {
    hide SetUp, Carries;
    OverrideGain(p, txgain, OnCore(core), false, core);
    var m := Pair(0, 0).Set(core, if p.wide then 45 else 64);
    p.chains := p.chains.(m87 := m);
    p.chains := p.chains.(m95 := m);
    Compare(p, core);
  }

  /** The gains of a core with the pad gain of a run. */
  method WordToMeasure(p: Phy, padGain: nat, core: nat) returns (txgain: nat)
    requires core < 2 && padGain < 32 && Room(p.hold, 1)
    modifies p`hold, p`bbcfg, p`pwrIdxAtGain
    ensures CS.Kept(old(p.hold), p.hold) && Pulsed(old(p.bbcfg), p.bbcfg)
    ensures txgain < 0x10000 && Calls(p.power.ctrl, p.chains.rad.Get(core), padGain, txgain)
    ensures !p.power.ctrl ==> p.pwrIdxAtGain == old(p.pwrIdxAtGain)
  {
    var gains := p.GetTxGains();
    txgain := GainWord(gains.Get(core), padGain);
  }

  /** b43_nphy_papd_run_one. */
  method RunOne(p: Phy, padGain: nat, gainCtrl: bool, core: nat)
    requires core < 2 && padGain < 32 && Room(p.hold, 1) && SetUp(p, core) && Coupled(p, core) && !p.bbcfg.rstrx && p.playing
    modifies p`hold, p`bbcfg, p`en, p`vals, p`chains, p`papdEn, p`calShift, p`swept, p`pwrIdxAtGain
    ensures SetUp(p, core)
    ensures CS.Kept(old(p.hold), p.hold) && Pulsed(old(p.bbcfg), p.bbcfg)
    ensures p.en == old(p.en).(o0 := Ran(old(p.en).o0)) && p.swept == old(p.swept) + [Sweeping(core, padGain, gainCtrl)]
    ensures p.chains == old(p.chains).(m87 := ToneMult(p.wide, core), m95 := ToneMult(p.wide, core))
    ensures p.calShift == Pair(core == 0, core == 1) && p.papdEn == Compares(old(p.papdEn), core)
    ensures !p.power.ctrl ==> p.pwrIdxAtGain == old(p.pwrIdxAtGain)
  {
    hide SetUp, Carries, Coupled, Calls, ToneMult, Ran;
    var txgain := WordToMeasure(p, padGain, core);
    Aim(p, core, txgain);
    Sweep(p, core, padGain, gainCtrl, txgain);
    OverrideGain(p, txgain, OnCore(core), true, core);
    RunBits(old(p.en).o0);
  }

  /** The gains of a core with another pad gain. */
  function GainWord(gains: TxGains.Gains, padGain: nat): (word: nat)
    requires gains.InRange() && padGain < 32
    ensures word < 0x10000 && TxGains.Unpack(word) == gains.(pad := padGain)
  {
    TxGains.GainRoundTrip(0, gains.(pad := padGain));
    TxGains.Pack(gains.(pad := padGain))
  }

  lemma RunBits(p: Pair<Bits>)
    ensures Pair(p.c0 + {12} + {13} + {3} - {12} - {13}, p.c1 + {3} - {12} - {13}) == Ran(p)
    ensures Pair(p.c0 + {3} - {12} - {13}, p.c1 + {12} + {13} + {3} - {12} - {13}) == Ran(p)
  {
    var a, b := p.c0, p.c1;
    assert a + {12} + {13} + {3} - {12} - {13} == a - {12, 13} + {3};
    assert b + {12} + {13} + {3} - {12} - {13} == b - {12, 13} + {3};
    assert a + {3} - {12} - {13} == a - {12, 13} + {3};
    assert b + {3} - {12} - {13} == b - {12, 13} + {3};
  }

  lemma RanTwice(p: Pair<Bits>)
    ensures Ran(Ran(p)) == Ran(p)
  {
    var a, b := p.c0, p.c1;
    assert a - {12, 13} + {3} - {12, 13} + {3} == a - {12, 13} + {3};
    assert b - {12, 13} + {3} - {12, 13} + {3} == b - {12, 13} + {3};
  }

  /** What the search has measured since `before`: from the strongest gain on, one weaker each time. */
  ghost predicate OneByOne(before: seq<Sweeping>, after: seq<Sweeping>, core: nat) {
    && before <= after && |before| < |after|
    && forall n :: |before| <= n < |after| ==> after[n] == Sweeping(core, PapdSearch.CODES - (n - |before|), true)
  }

  /** Where clipping depends only on being too strong, the gain is the weakest that still clips. */
  ghost predicate SettlesOn(engine: PapdSearch.Engine, gain: nat) {
    forall t: nat :: t <= PapdSearch.CODES && PapdSearch.ClipsBelow(engine, t) ==>
      gain == if t == 0 then 15 else 16 - t
  }

  /**
  The hardware side of b43_nphy_papd_gain_search: one run of the engine per step
  of the walk.  The engine is an oracle, so the walk is taken first.
  */
  method SearchRuns(p: Phy, engine: PapdSearch.Engine, core: nat) returns (gain: nat)
    requires core < 2 && Room(p.hold, 1) && SetUp(p, core) && Coupled(p, core) && !p.bbcfg.rstrx && p.playing
    modifies p`hold, p`bbcfg, p`en, p`vals, p`chains, p`papdEn, p`calShift, p`swept, p`pwrIdxAtGain
    ensures CS.Kept(old(p.hold), p.hold) && Pulsed(old(p.bbcfg), p.bbcfg)
    ensures p.en == old(p.en).(o0 := Ran(old(p.en).o0)) && SetUp(p, core)
    ensures p.chains == old(p.chains).(m87 := ToneMult(p.wide, core), m95 := ToneMult(p.wide, core))
    ensures !p.power.ctrl ==> p.pwrIdxAtGain == old(p.pwrIdxAtGain)
    ensures p.papdEn == Compares(old(p.papdEn), core)
    ensures 1 <= gain <= PapdSearch.CODES && OneByOne(old(p.swept), p.swept, core)
    ensures PapdSearch.Searches(engine, 0, |p.swept| - |old(p.swept)|, PapdSearch.CODES - gain)
    ensures SettlesOn(engine, gain)
  {
    hide SetUp;
    var idx, walk;
    gain, idx, walk := PapdSearch.GainSearch(engine, 0);
    PapdSearch.FromTheTop(engine, |walk|, idx);
    for k := 0 to |walk|
      invariant CS.Kept(old(p.hold), p.hold) && Pulsed(old(p.bbcfg), p.bbcfg) && SetUp(p, core)
      invariant p.en == if k == 0 then old(p.en) else old(p.en).(o0 := Ran(old(p.en).o0))
      invariant p.chains == if k == 0 then old(p.chains)
                            else old(p.chains).(m87 := ToneMult(p.wide, core), m95 := ToneMult(p.wide, core))
      invariant p.papdEn == if k == 0 then old(p.papdEn) else Compares(old(p.papdEn), core)
      invariant !p.power.ctrl ==> p.pwrIdxAtGain == old(p.pwrIdxAtGain)
      invariant |p.swept| == |old(p.swept)| + k && old(p.swept) <= p.swept
      invariant forall n :: |old(p.swept)| <= n < |p.swept| ==>
                  p.swept[n] == Sweeping(core, PapdSearch.CODES - (n - |old(p.swept)|), true)
    {
      RanTwice(old(p.en).o0);
      RunOne(p, PapdSearch.CODES - walk[k], true, core);
    }
  }

  // ---------------------------------------------------------------- setup and cleanup

  function OnOne(p: Pair<Bits>, core: nat, bits: Bits): Pair<Bits> {
    p.Set(core, p.Get(core) + bits)
  }

  function OnBoth(p: Pair<Bits>, bits: Bits): Pair<Bits> {
    Pair(p.c0 + bits, p.c1 + bits)
  }

  /** One override, with what each core has been given so far. */
  method Take(p: Phy, field: nat, value: nat, sel: nat, group: nat, ghost core: nat,
              ghost m: set<Setting>, ghost s: set<Setting>)
    requires core < 2 && group < 3 && Lookup(field, group).Some? && Fits(field, group, value)
    requires CarriesAll(p.vals, core, m) && CarriesAll(p.vals, 1 - core, s)
    requires (Selects(sel, core) ==> Others(m, field, group)) && (Selects(sel, 1 - core) ==> Others(s, field, group))
    modifies p`en, p`vals
    ensures p.en == Overridden(old(p.en), field, sel, false, group)
    ensures CarriesAll(p.vals, core, if Selects(sel, core) then m + {Setting(field, group, value)} else m)
    ensures CarriesAll(p.vals, 1 - core, if Selects(sel, 1 - core) then s + {Setting(field, group, value)} else s)
  {
    Taken(p.vals, field, value, sel, group, core, m);
    Taken(p.vals, field, value, sel, group, 1 - core, s);
    p.OverrideRegisters(field, value, sel, false, group);
  }

  /** One override on the measured core. */
  method TakeOne(p: Phy, field: nat, value: nat, core: nat, group: nat, ghost m: set<Setting>, ghost s: set<Setting>)
    requires core < 2 && group < 3 && Lookup(field, group).Some? && Fits(field, group, value)
    requires CarriesAll(p.vals, core, m) && CarriesAll(p.vals, 1 - core, s) && Others(m, field, group)
    modifies p`en, p`vals
    ensures p.en == Overridden(old(p.en), field, OnCore(core), false, group)
    ensures CarriesAll(p.vals, core, m + {Setting(field, group, value)}) && CarriesAll(p.vals, 1 - core, s)
  {
    hide CarriesAll, Valued;
    Take(p, field, value, OnCore(core), group, core, m, s);
  }

  /** None of the settings is about a field of the power-up command. */
  ghost predicate NoPowerUp(settings: set<Setting>) {
    && Others(settings, 0x4, 0) && Others(settings, 0x2, 1) && Others(settings, 0x1, 2)
    && Others(settings, 0x4, 2) && Others(settings, 0x800, 1)
  }

  /** The power-up command on one core. */
  method TakePowerUp(p: Phy, value: nat, i: nat, ghost m: set<Setting>, ghost others: set<Setting>)
    requires i < 2 && value < 2 && CarriesAll(p.vals, i, m) && NoPowerUp(m) && CarriesAll(p.vals, 1 - i, others)
    modifies p`en, p`vals
    ensures p.en == Overridden(Overridden(Overridden(Overridden(Overridden(old(p.en),
                      0x4, OnCore(i), false, 0), 0x2, OnCore(i), false, 1), 0x1, OnCore(i), false, 2),
                      0x4, OnCore(i), false, 2), 0x800, OnCore(i), false, 1)
    ensures CarriesAll(p.vals, i, m + PowerUp(value)) && CarriesAll(p.vals, 1 - i, others)
  {
    PowersUp(p.vals, value, i, m);
    PowersNoOther(p.vals, value, i, others);
    p.PowerUpTx(value, OnCore(i), false);
  }

  lemma PowersUp(regs: Registers, value: nat, i: nat, m: set<Setting>)
    requires i < 2 && value < 2 && CarriesAll(regs, i, m) && NoPowerUp(m)
    ensures var c := OnCore(i);
            CarriesAll(Valued(Valued(Valued(Valued(Valued(regs, 0x4, value, c, false, 0), 0x2, value, c, false, 1),
                         0x1, value, c, false, 2), 0x4, value, c, false, 2), 0x800, 1, c, false, 1), i, m + PowerUp(value))
  {
    hide Valued, CarriesAll;
    var c := OnCore(i);
    var r1 := Valued(regs, 0x4, value, c, false, 0);
    var r2 := Valued(r1, 0x2, value, c, false, 1);
    var r3 := Valued(r2, 0x1, value, c, false, 2);
    var r4 := Valued(r3, 0x4, value, c, false, 2);
    var s1 := m + {Setting(0x4, 0, value)};
    var s2 := s1 + {Setting(0x2, 1, value)};
    var s3 := s2 + {Setting(0x1, 2, value)};
    var s4 := s3 + {Setting(0x4, 2, value)};
    Taken(regs, 0x4, value, c, 0, i, m);
    Taken(r1, 0x2, value, c, 1, i, s1);
    Taken(r2, 0x1, value, c, 2, i, s2);
    Taken(r3, 0x4, value, c, 2, i, s3);
    Taken(r4, 0x800, 1, c, 1, i, s4);
    assert s4 + {Setting(0x800, 1, 1)} == m + PowerUp(value);
  }

  lemma NothingYet(regs: Registers, i: nat)
    ensures CarriesAll(regs, i, {})
  {
  }

  lemma PowersNoOther(regs: Registers, value: nat, i: nat, others: set<Setting>)
    requires i < 2 && value < 2 && CarriesAll(regs, 1 - i, others)
    ensures var c := OnCore(i);
            CarriesAll(Valued(Valued(Valued(Valued(Valued(regs, 0x4, value, c, false, 0), 0x2, value, c, false, 1),
                         0x1, value, c, false, 2), 0x4, value, c, false, 2), 0x800, 1, c, false, 1), 1 - i, others)
  {
    hide Valued, CarriesAll;
    var c := OnCore(i);
    var r1 := Valued(regs, 0x4, value, c, false, 0);
    var r2 := Valued(r1, 0x2, value, c, false, 1);
    var r3 := Valued(r2, 0x1, value, c, false, 2);
    var r4 := Valued(r3, 0x4, value, c, false, 2);
    OtherSideKeeps(regs, 0x4, value, c, 0, 1 - i, others);
    OtherSideKeeps(r1, 0x2, value, c, 1, 1 - i, others);
    OtherSideKeeps(r2, 0x1, value, c, 2, 1 - i, others);
    OtherSideKeeps(r3, 0x4, value, c, 2, 1 - i, others);
    OtherSideKeeps(r4, 0x800, 1, c, 1, 1 - i, others);
  }

  method TakeBandwidth(p: Phy, ghost core: nat)
    requires core < 2
    modifies p`en, p`vals
    ensures p.en == Overridden(old(p.en), 0x80, 0, false, 1)
    ensures p.Playing() == SP.CalSetup(old(p.Playing()))
    ensures CarriesAll(p.vals, core, Bandwidth(p.ReadLpfCtl())) && CarriesAll(p.vals, 1 - core, Bandwidth(p.ReadLpfCtl()))
  {
    var bw := p.ReadLpfCtl();
    NothingYet(p.vals, core);
    NothingYet(p.vals, 1 - core);
    Take(p, 0x80, bw, 0, 1, core, {}, {});
    assert {} + Bandwidth(bw) == Bandwidth(bw);
  }

  /** Bandwidth and mixer gain. */
  method TakeFirst(p: Phy, core: nat)
    requires core < 2
    modifies p`en, p`vals
    ensures p.en == Overridden(Overridden(old(p.en), 0x80, 0, false, 1), 0x800, OnCore(core), false, 0)
    ensures CarriesAll(p.vals, core, Bandwidth(p.ReadLpfCtl()) + {Setting(0x800, 0, 0)})
    ensures CarriesAll(p.vals, 1 - core, Bandwidth(p.ReadLpfCtl()))
  {
    hide Valued, CarriesAll;
    TakeBandwidth(p, core);
    TakeOne(p, 0x800, 0, core, 0, Bandwidth(p.ReadLpfCtl()), Bandwidth(p.ReadLpfCtl()));
  }

  /** The first part of the overrides of the setup: bandwidth, mixer gain, power-up of the transmit chain. */
  method TakeTransmit(p: Phy, core: nat)
    requires core < 2
    modifies p`en, p`vals
    ensures p.en.o0 == OnBoth(OnOne(old(p.en).o0, core, {11}), {2})
    ensures p.en.o1 == OnBoth(old(p.en).o1, {1, 7, 11})
    ensures p.en.o2 == OnBoth(old(p.en).o2, {0, 2})
    ensures CarriesAll(p.vals, core, Bandwidth(p.ReadLpfCtl()) + PowerUp(1) + {Setting(0x800, 0, 0)})
    ensures CarriesAll(p.vals, 1 - core, Bandwidth(p.ReadLpfCtl()) + PowerUp(0))
  {
    hide Valued, CarriesAll;
    ghost var b := Bandwidth(p.ReadLpfCtl());
    TakeFirst(p, core);
    TakePowerUp(p, 1, core, b + {Setting(0x800, 0, 0)}, b);
    TakePowerUp(p, 0, 1 - core, b, b + {Setting(0x800, 0, 0)} + PowerUp(1));
    assert b + {Setting(0x800, 0, 0)} + PowerUp(1) == b + PowerUp(1) + {Setting(0x800, 0, 0)};
    TransmitBits(old(p.en).o1.c0, old(p.en).o2.c0);
    TransmitBits(old(p.en).o1.c1, old(p.en).o2.c1);
  }

  lemma TransmitBits(x1: Bits, x2: Bits)
    ensures x1 + {7} + {1} + {11} == x1 + {1, 7, 11}
    ensures x2 + {0} + {2} == x2 + {0, 2}
  {
  }

  /** The second part: the receive chain the tone comes back through. */
  method TakeReceive(p: Phy, core: nat)
    requires core < 2
    requires CarriesAll(p.vals, core, Bandwidth(p.ReadLpfCtl()) + PowerUp(1) + {Setting(0x800, 0, 0)})
    requires CarriesAll(p.vals, 1 - core, Bandwidth(p.ReadLpfCtl()) + PowerUp(0))
    modifies p`en, p`vals
    ensures p.en.o0 == OnBoth(old(p.en).o0, {3})
    ensures p.en.o1 == OnOne(old(p.en).o1, core, {0, 2, 8})
    ensures p.en.o2 == OnOne(old(p.en).o2, core, {1})
    ensures CarriesAll(p.vals, core, Bandwidth(p.ReadLpfCtl()) + PowerUp(1) + RECEIVE)
    ensures CarriesAll(p.vals, 1 - core, Bandwidth(p.ReadLpfCtl()) + PowerUp(0))
  {
    hide Valued, CarriesAll;
    ghost var s := Bandwidth(p.ReadLpfCtl()) + PowerUp(0);
    ghost var m := Bandwidth(p.ReadLpfCtl()) + PowerUp(1) + {Setting(0x800, 0, 0)};
    TakeInternal(p, core, m, s);
    TakeOne(p, 0x4, 1, core, 1, m, s);
    m := m + {Setting(0x4, 1, 1)};
    TakeOne(p, 0x1, 0, core, 1, m, s);
    m := m + {Setting(0x1, 1, 0)};
    TakeOne(p, 0x2, 1, core, 2, m, s);
    m := m + {Setting(0x2, 2, 1)};
    TakeOne(p, 0x100, 0, core, 1, m, s);
    m := m + {Setting(0x100, 1, 0)};
    assert m == Bandwidth(p.ReadLpfCtl()) + PowerUp(1) + RECEIVE;
    ReceiveBits(old(p.en).o1.Get(core));
  }

  method TakeInternal(p: Phy, core: nat, ghost m: set<Setting>, ghost s: set<Setting>)
    requires core < 2 && CarriesAll(p.vals, core, m) && CarriesAll(p.vals, 1 - core, s)
    requires Others(m, 0x8, 0) && Others(s, 0x8, 0)
    modifies p`en, p`vals
    ensures p.en == Overridden(old(p.en), 0x8, 0x3, false, 0)
    ensures CarriesAll(p.vals, core, m) && CarriesAll(p.vals, 1 - core, s)
  {
    hide CarriesAll, Valued;
    Take(p, 0x8, 0, 0x3, 0, core, m, s);
    Fewer(p.vals, core, m + {Setting(0x8, 0, 0)}, m);
    Fewer(p.vals, 1 - core, s + {Setting(0x8, 0, 0)}, s);
  }

  lemma Fewer(regs: Registers, i: nat, settings: set<Setting>, some: set<Setting>)
    requires some <= settings && CarriesAll(regs, i, settings)
    ensures CarriesAll(regs, i, some)
  {
  }

  lemma ReceiveBits(x: Bits)
    ensures x + {2} + {0} + {8} == x + {0, 2, 8}
  {
  }

  /** The third part: the rest of the second group. */
  method TakeLoop(p: Phy, core: nat)
    requires core < 2
    requires CarriesAll(p.vals, core, Bandwidth(p.ReadLpfCtl()) + PowerUp(1) + RECEIVE)
    requires CarriesAll(p.vals, 1 - core, Bandwidth(p.ReadLpfCtl()) + PowerUp(0))
    modifies p`en, p`vals
    ensures p.en == old(p.en).(o1 := OnOne(old(p.en).o1, core, {3, 4, 5, 9, 10}))
    ensures BothCarry(p.vals, p.ReadLpfCtl(), core)
  {
    hide Valued, CarriesAll;
    ghost var m, s := Bandwidth(p.ReadLpfCtl()) + PowerUp(1) + RECEIVE, Bandwidth(p.ReadLpfCtl()) + PowerUp(0);
    TakeOne(p, 0x200, 1, core, 1, m, s);
    m := m + {Setting(0x200, 1, 1)};
    TakeOne(p, 0x400, 0, core, 1, m, s);
    m := m + {Setting(0x400, 1, 0)};
    TakeLast(p, core, m, s);
    m := m + {Setting(0x8, 1, 1), Setting(0x20, 1, 0), Setting(0x10, 1, 0)};
    assert m == Bandwidth(p.ReadLpfCtl()) + PowerUp(1) + RECEIVE + LOOP;
    LoopBits(old(p.en).o1.Get(core));
  }

  method TakeLast(p: Phy, core: nat, ghost m: set<Setting>, ghost s: set<Setting>)
    requires core < 2 && CarriesAll(p.vals, core, m) && CarriesAll(p.vals, 1 - core, s)
    requires Others(m, 0x8, 1) && Others(m, 0x20, 1) && Others(m, 0x10, 1)
    modifies p`en, p`vals
    ensures p.en == old(p.en).(o1 := OnOne(OnOne(OnOne(old(p.en).o1, core, {3}), core, {5}), core, {4}))
    ensures CarriesAll(p.vals, core, m + {Setting(0x8, 1, 1), Setting(0x20, 1, 0), Setting(0x10, 1, 0)})
    ensures CarriesAll(p.vals, 1 - core, s)
  {
    hide Valued, CarriesAll;
    TakeOne(p, 0x8, 1, core, 1, m, s);
    TakeOne(p, 0x20, 0, core, 1, m + {Setting(0x8, 1, 1)}, s);
    TakeOne(p, 0x10, 0, core, 1, m + {Setting(0x8, 1, 1)} + {Setting(0x20, 1, 0)}, s);
    assert m + {Setting(0x8, 1, 1)} + {Setting(0x20, 1, 0)} + {Setting(0x10, 1, 0)}
           == m + {Setting(0x8, 1, 1), Setting(0x20, 1, 0), Setting(0x10, 1, 0)};
  }

  lemma LoopBits(x: Bits)
    ensures x + {9} + {10} + {3} + {5} + {4} == x + {3, 4, 5, 9, 10}
  {
  }

  /** What the setup has taken of the enable registers when it is done. */
  function TakenBy(en: Enables, core: nat): Enables {
    Enables(OnBoth(OnBoth(OnOne(en.o0, core, {11}), {2}), {3}),
            OnOne(OnOne(OnBoth(en.o1, {1, 7, 11}), core, {0, 2, 8}), core, {3, 4, 5, 9, 10}),
            OnOne(OnBoth(en.o2, {0, 2}), core, {1}))
  }

  method TakeOverrides(p: Phy, core: nat)
    requires core < 2
    modifies p`en, p`vals
    ensures p.en == TakenBy(old(p.en), core)
    ensures 7 in p.en.o1.c0 && 7 in p.en.o1.c1 && SetUp(p, core)
  {
    hide Valued, CarriesAll;
    TakeTransmit(p, core);
    TakeReceive(p, core);
    TakeLoop(p, core);
  }

  /** The AFE of both cores and the coupler of both cores, taken for a measurement of one. */
  method TakeAnalog(p: Phy, core: nat) returns (s: State)
    requires core < 2
    modifies p`afectl, p`afeover, p`pwrup, p`atten
    ensures s.afectl == old(p.afectl) && s.afeover == old(p.afeover)
    ensures s.pwrup == old(p.pwrup) && s.atten == old(p.atten)
    ensures p.afectl.Get(core) == old(p.afectl).Get(core) - {2}
    ensures p.afectl.Get(1 - core) == old(p.afectl).Get(1 - core) + {2}
    ensures p.afeover == OnBoth(old(p.afeover), {2})
    ensures p.pwrup.Get(core) == 0xC && p.atten.Get(core) == 0xF0
    ensures p.pwrup.Get(1 - core) == 0 && p.atten.Get(1 - core) == 0xFF
  {
    s := State(p.afectl, p.afeover, p.pwrup, p.atten, Pair(0, 0));
    p.afectl := p.afectl.Set(core, p.afectl.Get(core) - {2});
    p.afeover := p.afeover.Set(core, p.afeover.Get(core) + {2});
    p.afectl := p.afectl.Set(1 - core, p.afectl.Get(1 - core) + {2});
    p.afeover := p.afeover.Set(1 - core, p.afeover.Get(1 - core) + {2});
    p.pwrup := p.pwrup.Set(core, 0xC);
    p.atten := p.atten.Set(core, 0xF0);
    p.pwrup := p.pwrup.Set(1 - core, 0x0);
    p.atten := p.atten.Set(1 - core, 0xFF);
  }

  /** b43_nphy_papd_cal_setup. */
  method Setup(p: Phy, core: nat, bbmult: SP.Mult) returns (s: State)
    requires core < 2 && Room(p.hold, 1)
    modifies p`hold, p`bbcfg, p`en, p`vals, p`lpfOwned, p`multSave, p`playing, p`chains
    modifies p`afectl, p`afeover, p`pwrup, p`atten, p`papdEn, p`calShift
    ensures CS.Kept(old(p.hold), p.hold) && Pulsed(old(p.bbcfg), p.bbcfg)
    ensures p.en == TakenBy(old(p.en), core)
    ensures p.chains == old(p.chains) && p.lpfOwned == old(p.lpfOwned)
    ensures p.multSave == old(p.multSave) || (old(p.multSave).None? && p.multSave == Some(p.chains.m87))
    ensures s == State(old(p.afectl), old(p.afeover), old(p.pwrup), old(p.atten), bbmult)
    ensures p.calShift == Pair(core == 0, core == 1) && p.papdEn == Compares(old(p.papdEn), core)
    ensures SetUp(p, core) && Coupled(p, core) && p.playing
  {
    hide TakenBy, SetUp;
    TakeOverrides(p, core);
    s := TakeAnalog(p, core);
    s := s.(bbmult := bbmult);
    var _ := p.TxTone(false);
    Compare(p, core);
  }

  // ---------------------------------------------------------------- cleanup

  method Release0(p: Phy)
    modifies p`en, p`vals
    ensures p.en.o0 == Without(old(p.en).o0, {2, 3, 11, 12})
    ensures p.en.o1 == Without(old(p.en).o1, {1, 11})
    ensures p.en.o2 == Without(old(p.en).o2, {0, 2})
  {
    p.Override(0x4, 0, 0x3, true, 0);
    p.Override(0x2, 0, 0x3, true, 1);
    p.Override(0x1, 0, 0x3, true, 2);
    p.Override(0x4, 0, 0x3, true, 2);
    p.Override(0x800, 1, 0x3, true, 1);
    p.Override(0x8, 0, 0x3, true, 0);
    p.Override(0x800, 0, 0x3, true, 0);
    p.Override(0x1000, 0, 0x3, true, 0);
    ReleaseBits0(old(p.en).o0.c0, old(p.en).o1.c0, old(p.en).o2.c0);
    ReleaseBits0(old(p.en).o0.c1, old(p.en).o1.c1, old(p.en).o2.c1);
  }

  lemma ReleaseBits0(x0: Bits, x1: Bits, x2: Bits)
    ensures x0 - {2} - {3} - {11} - {12} == x0 - {2, 3, 11, 12}
    ensures x1 - {1} - {11} == x1 - {1, 11}
    ensures x2 - {0} - {2} == x2 - {0, 2}
  {
  }

  method Release1(p: Phy)
    modifies p`en, p`vals
    ensures p.en.o0 == old(p.en).o0
    ensures p.en.o1 == Without(old(p.en).o1, {0, 2, 8, 9, 10, 3, 5, 4})
    ensures p.en.o2 == Without(old(p.en).o2, {1})
  {
    p.Override(0x4, 1, 0x3, true, 1);
    p.Override(0x1, 0, 0x3, true, 1);
    p.Override(0x2, 1, 0x3, true, 2);
    p.Override(0x100, 0, 0x3, true, 1);
    p.Override(0x200, 1, 0x3, true, 1);
    p.Override(0x400, 0, 0x3, true, 1);
    p.Override(0x8, 1, 0x3, true, 1);
    p.Override(0x20, 0, 0x3, true, 1);
    p.Override(0x10, 0, 0x3, true, 1);
    ReleaseBits1(old(p.en).o1.c0);
    ReleaseBits1(old(p.en).o1.c1);
  }

  lemma ReleaseBits1(x: Bits)
    ensures x - {2} - {0} - {8} - {9} - {10} - {3} - {5} - {4} == x - {0, 2, 8, 9, 10, 3, 5, 4}
  {
  }

  /** Everything the cleanup switches off, in the first group all but the transmit gain, which each run releases. */
  function ReleasedFrom(en: Enables): Enables {
    Enables(Without(en.o0, {2, 3, 11, 12}), Without(en.o1, BITS1), Without(en.o2, BITS2))
  }

  lemma ReleasedBits(x1: Bits, x2: Bits)
    ensures x1 - {1, 11} - {0, 2, 8, 9, 10, 3, 5, 4} - {7} == x1 - BITS1
    ensures x1 - {7} - BITS1 == x1 - BITS1
    ensures x2 - {0, 2} - {1} == x2 - BITS2
  {
  }

  method ReleaseAll(p: Phy)
    modifies p`en, p`vals
    ensures p.en == ReleasedFrom(old(p.en)) && p.Playing() == SP.CalCleanup(old(p.Playing()))
  {
    Release0(p);
    Release1(p);
    p.Override(0x80, 0, 0, true, 1);
    ReleasedBits(old(p.en).o1.c0, old(p.en).o2.c0);
    ReleasedBits(old(p.en).o1.c1, old(p.en).o2.c1);
  }

  /** The coupler's attenuators go back, its power-ups go to zero. */
  method RestoreCoupler(p: Phy, s: State)
    modifies p`pwrup, p`atten
    ensures p.atten == s.atten && p.pwrup == Pair(0, 0)
  {
    for core := 0 to 2
      invariant core > 0 ==> p.pwrup.c0 == 0 && p.atten.c0 == s.atten.c0
      invariant core > 1 ==> p.pwrup.c1 == 0 && p.atten.c1 == s.atten.c1
    {
      p.pwrup := p.pwrup.Set(core, 0);
      p.atten := p.atten.Set(core, s.atten.Get(core));
    }
  }

  method RestoreAfe(p: Phy, s: State)
    modifies p`afectl, p`afeover
    ensures p.afectl == s.afectl && p.afeover == s.afeover
  {
    for core := 0 to 2
      invariant core > 0 ==> p.afectl.c0 == s.afectl.c0 && p.afeover.c0 == s.afeover.c0
      invariant core > 1 ==> p.afectl.c1 == s.afectl.c1 && p.afeover.c1 == s.afeover.c1
    {
      p.afectl := p.afectl.Set(core, s.afectl.Get(core));
      p.afeover := p.afeover.Set(core, s.afeover.Get(core));
    }
  }

  /** b43_nphy_papd_cal_cleanup. */
  method Cleanup(p: Phy, s: State)
    requires Room(p.hold, 1)
    modifies p`hold, p`bbcfg, p`en, p`vals, p`lpfOwned, p`multSave, p`playing, p`chains
    modifies p`afectl, p`afeover, p`pwrup, p`atten
    ensures CS.Kept(old(p.hold), p.hold) && Pulsed(old(p.bbcfg), p.bbcfg)
    ensures p.en == ReleasedFrom(old(p.en))
    ensures p.afectl == s.afectl && p.afeover == s.afeover && p.atten == s.atten && p.pwrup == Pair(0, 0)
    ensures p.chains == old(p.chains).(m87 := s.bbmult, m95 := s.bbmult)
    ensures p.multSave.None? && !p.lpfOwned
  {
    p.StopPlayback();
    RestoreCoupler(p, s);
    ReleaseAll(p);
    RestoreAfe(p, s);
    p.chains := p.chains.(m87 := s.bbmult);
    p.chains := p.chains.(m95 := s.bbmult);
    ReleasedBits(old(p.en).o1.c0, old(p.en).o2.c0);
    ReleasedBits(old(p.en).o1.c1, old(p.en).o2.c1);
  }

  // ---------------------------------------------------------------- the bracket

  lemma BracketBits0(x: Bits)
    ensures x + {2} + {3} - {12, 13} + {3} - {2, 3, 11, 12} == x - BITS0
    ensures x + {11} + {2} + {3} - {12, 13} + {3} - {2, 3, 11, 12} == x - BITS0
  {
  }

  lemma BracketBits1(x: Bits)
    ensures x + {1, 7, 11} - BITS1 == x - BITS1
    ensures x + {1, 7, 11} + {0, 2, 8} + {3, 4, 5, 9, 10} - BITS1 == x - BITS1
  {
  }

  lemma BracketBits2(x: Bits)
    ensures x + {0, 2} - BITS2 == x - BITS2
    ensures x + {0, 2} + {1} - BITS2 == x - BITS2
  {
  }

  /** Setup, any number of runs and cleanup, on either core. */
  lemma BracketBits(en: Enables, core: nat)
    requires core < 2
    ensures var t := TakenBy(en, core); ReleasedFrom(t.(o0 := Ran(Ran(t.o0)))) == GivenBack(en)
  {
    RanTwice(TakenBy(en, core).o0);
    BracketBits0(en.o0.c0);
    BracketBits0(en.o0.c1);
    BracketBits1(en.o1.c0);
    BracketBits1(en.o1.c1);
    BracketBits2(en.o2.c0);
    BracketBits2(en.o2.c1);
  }

  /** A search as the engine's answers call for, and one run more at the gain it settled on. */
  ghost predicate Measured(engine: PapdSearch.Engine, before: seq<Sweeping>, after: seq<Sweeping>, core: nat, gain: nat) {
    && |after| > 0 && after[|after| - 1] == Sweeping(core, gain, false) && OneByOne(before, after[..|after| - 1], core)
    && PapdSearch.Searches(engine, 0, |after| - 1 - |before|, PapdSearch.CODES - gain)
    && SettlesOn(engine, gain)
  }

  /** The search and the run after it. */
  method MeasureCore(p: Phy, engine: PapdSearch.Engine, core: nat) returns (gain: nat)
    requires core < 2 && Room(p.hold, 1) && SetUp(p, core) && Coupled(p, core) && !p.bbcfg.rstrx && p.playing
    modifies p`hold, p`bbcfg, p`en, p`vals, p`chains, p`papdEn, p`calShift, p`swept, p`pwrIdxAtGain
    ensures CS.Kept(old(p.hold), p.hold) && Pulsed(old(p.bbcfg), p.bbcfg)
    ensures p.en == old(p.en).(o0 := Ran(Ran(old(p.en).o0)))
    ensures p.chains == old(p.chains).(m87 := ToneMult(p.wide, core), m95 := ToneMult(p.wide, core))
    ensures !p.power.ctrl ==> p.pwrIdxAtGain == old(p.pwrIdxAtGain)
    ensures p.papdEn == Compares(old(p.papdEn), core)
    ensures Measured(engine, old(p.swept), p.swept, core, gain)
  {
    hide SetUp, Coupled, Ran, SettlesOn, OneByOne, PapdSearch.Searches;
    gain := SearchRuns(p, engine, core);
    ghost var searched := p.swept;
    RunOne(p, gain, false, core);
    assert p.swept[..|p.swept| - 1] == searched;
  }

  /**
  One core of b43_nphy_papd_cal.  Whatever the engine reports and wherever the
  search ends: it measures one code weaker each time and then once at the gain it
  settled on; every enable bit the calibration can set is off in all six
  registers and no other bit has moved; both cores' AFE registers and both
  attenuators are back, the coupler is powered down; both multiplier cells hold
  the saved value, and no playback state is left over.
  */
  method CalibrateCore(p: Phy, core: nat, engine: PapdSearch.Engine, bbmult: SP.Mult) returns (gain: nat)
    requires core < 2 && Room(p.hold, 1) && !p.bbcfg.rstrx
    modifies p`hold, p`bbcfg, p`en, p`vals, p`lpfOwned, p`multSave, p`playing, p`chains, p`pwrIdxAtGain
    modifies p`afectl, p`afeover, p`pwrup, p`atten, p`papdEn, p`calShift, p`swept
    ensures CS.Kept(old(p.hold), p.hold) && Pulsed(old(p.bbcfg), p.bbcfg)
    ensures p.en == GivenBack(old(p.en))
    ensures p.afectl == old(p.afectl) && p.afeover == old(p.afeover)
    ensures p.atten == old(p.atten) && p.pwrup == Pair(0, 0)
    ensures p.chains == old(p.chains).(m87 := bbmult, m95 := bbmult)
    ensures p.multSave.None? && !p.lpfOwned
    ensures !p.power.ctrl ==> p.pwrIdxAtGain == old(p.pwrIdxAtGain)
    ensures p.papdEn == Compares(old(p.papdEn), core)
    ensures Measured(engine, old(p.swept), p.swept, core, gain)
  {
    hide SetUp, Coupled, Measured, TakenBy, ReleasedFrom, Ran;
    var state := Setup(p, core, bbmult);
    gain := MeasureCore(p, engine, core);
    Cleanup(p, state);
    BracketBits(old(p.en), core);
  }

  /** Core 0 measured, then core 1, each on the gain its engine calls for. */
  ghost predicate BothMeasured(before: seq<Sweeping>, after: seq<Sweeping>, engines: Pair<PapdSearch.Engine>) {
    exists middle, gain0, gain1 ::
      Measured(engines.c0, before, middle, 0, gain0) && Measured(engines.c1, middle, after, 1, gain1)
  }

  /** Both cores, one after the other: as one core, twice. */
  method CalibrateCores(p: Phy, engines: Pair<PapdSearch.Engine>, bbmult: SP.Mult)
    requires Room(p.hold, 1) && !p.bbcfg.rstrx
    modifies p`hold, p`bbcfg, p`en, p`vals, p`lpfOwned, p`multSave, p`playing, p`chains, p`pwrIdxAtGain
    modifies p`afectl, p`afeover, p`pwrup, p`atten, p`papdEn, p`calShift, p`swept
    ensures CS.Kept(old(p.hold), p.hold) && Pulsed(old(p.bbcfg), p.bbcfg)
    ensures p.en == GivenBack(old(p.en))
    ensures p.afectl == old(p.afectl) && p.afeover == old(p.afeover)
    ensures p.atten == old(p.atten) && p.pwrup == Pair(0, 0)
    ensures p.chains == old(p.chains).(m87 := bbmult, m95 := bbmult)
    ensures p.multSave.None? && !p.lpfOwned
    ensures !p.power.ctrl ==> p.pwrIdxAtGain == old(p.pwrIdxAtGain)
    ensures p.papdEn == Compares(old(p.papdEn), 1)
    ensures BothMeasured(old(p.swept), p.swept, engines)
  {
    var gain0 := CalibrateCore(p, 0, engines.c0, bbmult);
    ghost var middle := p.swept;
    var gain1 := CalibrateCore(p, 1, engines.c1, bbmult);
    assert Measured(engines.c0, old(p.swept), middle, 0, gain0) && Measured(engines.c1, middle, p.swept, 1, gain1);
    GivenBackTwice(old(p.en));
  }

  /** The comparison goes on for both chains, the comparison shift off. */
  method EngineOn(p: Phy)
    modifies p`papdEn, p`calShift
    ensures p.papdEn == BothCompare(old(p.papdEn)) && p.calShift == Pair(false, false)
  {
    p.papdEn := p.papdEn.Set(0, p.papdEn.c0.(compare := true));
    p.papdEn := p.papdEn.Set(1, p.papdEn.c1.(compare := true));
    p.calShift := p.calShift.Set(0, false);
    p.calShift := p.calShift.Set(1, false);
  }

  /** What happens while the control is off for the calibration. */
  method CalibrateOff(p: Phy, engines: Pair<PapdSearch.Engine>, bbcfg: BbCfg, bbmult: SP.Mult)
    requires Room(p.hold, 1) && !p.power.ctrl && !p.bbcfg.rstrx
    modifies p`hold, p`bbcfg, p`en, p`vals, p`lpfOwned, p`multSave, p`playing, p`chains, p`pwrIdxAtGain
    modifies p`afectl, p`afeover, p`pwrup, p`atten, p`papdEn, p`calShift, p`swept
    ensures CS.Kept(old(p.hold), p.hold) && p.bbcfg == bbcfg
    ensures p.en == GivenBack(old(p.en))
    ensures p.afectl == old(p.afectl) && p.afeover == old(p.afeover)
    ensures p.atten == old(p.atten) && p.pwrup == Pair(0, 0)
    ensures p.chains == old(p.chains).(m87 := bbmult, m95 := bbmult)
    ensures p.multSave.None? && !p.lpfOwned
    ensures p.pwrIdxAtGain == old(p.pwrIdxAtGain)
    ensures p.papdEn == BothCompare(old(p.papdEn)) && p.calShift == Pair(false, false)
    ensures BothMeasured(old(p.swept), p.swept, engines)
  {
    hide BothMeasured;
    CalibrateCores(p, engines, bbmult);
    EngineOn(p);
    p.bbcfg := bbcfg;
  }

  /** Power control, off and back to what it was. */
  ghost predicate PowerBracket(w: Power, w': Power) {
    && w'.ctrl == w.ctrl
    && (w.ctrl ==> w'.cmd == ON)
    && (!w.ctrl ==> w'.cmd == OFF && w'.init == w.init && (w.cmd == OFF ==> w' == w))
  }

  /** Switched on once if it was on, and otherwise not at all. */
  ghost predicate Counted(w: Power, enables: nat, enables': nat) {
    enables' == if w.ctrl then enables + 1 else enables
  }

  function AfeAfter(w: Power, afe: Pair<Bits>): Pair<Bits> {
    if w.ctrl then AfeFreed(afe) else AfeForced(afe)
  }

  lemma OpenedAndClosed(w: Power, w1: Power, w2: Power)
    requires Disabled(w.(ctrl := false), w1)
    requires if w.ctrl then w2 == Enabling(w1.(ctrl := true)) else Disabled(w1.(ctrl := false), w2)
    ensures PowerBracket(w, w2)
  {
  }

  /** The closing half of the power control bracket, `w` and `afe` as they were before the opening half. */
  method CloseBracket(p: Phy, state: bool, ghost w: Power, ghost afe: Pair<Bits>)
    requires Room(p.hold, 1) && state == w.ctrl
    requires Disabled(w.(ctrl := false), p.power) && p.afeover == AfeForced(afe)
    modifies p`hold, p`bbcfg, p`power, p`adjPwrHw, p`enables, p`afeover, p`papdEn
    ensures CS.Kept(old(p.hold), p.hold) && Pulsed(old(p.bbcfg), p.bbcfg)
    ensures p.papdEn == p.PapdControlled(old(p.papdEn), state)
    ensures PowerBracket(w, p.power) && Counted(w, old(p.enables), p.enables) && p.afeover == AfeAfter(w, afe)
  {
    ghost var off := p.power;
    FreedForced(afe);
    p.TxPowerCtrl(state);
    OpenedAndClosed(w, off, p.power);
  }

  /** The power control bracket of the calibration. */
  method Bracketed(p: Phy, engines: Pair<PapdSearch.Engine>, bbcfg: BbCfg)
    requires Room(p.hold, 1) && !p.bbcfg.rstrx
    modifies p`hold, p`bbcfg, p`en, p`vals, p`lpfOwned, p`multSave, p`playing, p`chains, p`pwrIdxAtGain
    modifies p`power, p`adjPwrHw, p`enables
    modifies p`afectl, p`afeover, p`pwrup, p`atten, p`papdEn, p`calShift, p`swept
    ensures CS.Kept(old(p.hold), p.hold) && Pulsed(bbcfg, p.bbcfg)
    ensures p.en == GivenBack(old(p.en)) && p.multSave.None? && !p.lpfOwned
    ensures p.afectl == old(p.afectl) && p.atten == old(p.atten) && p.pwrup == Pair(0, 0)
    ensures p.chains == old(p.chains).(m95 := old(p.chains).m87) && p.pwrIdxAtGain == old(p.pwrIdxAtGain)
    ensures p.papdEn == p.PapdControlled(BothCompare(old(p.papdEn)), old(p.power).ctrl) && p.calShift == Pair(false, false)
    ensures PowerBracket(old(p.power), p.power) && Counted(old(p.power), old(p.enables), p.enables)
    ensures p.afeover == AfeAfter(old(p.power), old(p.afeover))
    ensures BothMeasured(old(p.swept), p.swept, engines)
  {
    hide BothMeasured;
    var bbmult := p.chains.m87;
    var state := p.PwrCtlOpen();
    CalibrateOff(p, engines, bbcfg, bbmult);
    CloseBracket(p, state, old(p.power), old(p.afeover));
  }

  /** The index the driver keeps for a chain, forced on the cores of the mask. */
  method BackOnIndex(p: Phy)
    requires Room(p.hold, 2)
    modifies p`hold, p`bbcfg, p`power, p`adjPwrHw, p`enables, p`afeover, p`papdEn, p`chains
    ensures CS.Kept(old(p.hold), p.hold) && Pulsed(old(p.bbcfg), p.bbcfg)
    ensures p.chains == OnInternal(p, old(p.chains))
    ensures p.StaysOff() && (!old(p.power).ctrl ==> p.papdEn == OffsetsOnInternal(p, old(p.papdEn), old(p.chains)))
  {
    p.TxpwrIndex(1, p.chains.saved.c0.internal, false);
    p.TxpwrIndex(2, p.chains.saved.c1.internal, false);
  }

  /** Each chain on the index the driver keeps for it. */
  function OnInternal(p: Phy, c: ForcedIndex.Chains): ForcedIndex.Chains
    reads p`gainTbl, p`iqTbl, p`loTbl
  {
    var c1 := p.Indexed(c, 1, c.saved.c0.internal, false, 2);
    p.Indexed(c1, 2, c1.saved.c1.internal, false, 2)
  }

  /** The comparison registers then, with the power offsets of those indices. */
  function OffsetsOnInternal(p: Phy, en: Pair<PapdEn>, c: ForcedIndex.Chains): Pair<PapdEn>
    reads p`gainTbl, p`iqTbl, p`loTbl, p`offsetTbl
  {
    var c1 := p.Indexed(c, 1, c.saved.c0.internal, false, 2);
    p.PapdIndexed(p.PapdIndexed(en, c.saved, 1, c.saved.c0.internal, false, 2), c1.saved, 2, c1.saved.c1.internal, false, 2)
  }

  /** With power control off the chains go back on their indices; with it on the hardware does that itself. */
  method SettleChains(p: Phy)
    requires Room(p.hold, 2)
    modifies p`hold, p`bbcfg, p`power, p`adjPwrHw, p`enables, p`afeover, p`papdEn, p`chains
    ensures CS.Kept(old(p.hold), p.hold) && Pulsed(old(p.bbcfg), p.bbcfg)
    ensures p.chains == if old(p.power).ctrl then old(p.chains) else OnInternal(p, old(p.chains))
    ensures p.StaysOff()
    ensures p.papdEn == if old(p.power).ctrl then old(p.papdEn) else OffsetsOnInternal(p, old(p.papdEn), old(p.chains))
    ensures old(p.power).ctrl ==> p.power == old(p.power) && p.enables == old(p.enables) && p.afeover == old(p.afeover)
  {
    if !p.power.ctrl {
      BackOnIndex(p);
    }
  }

  /** The calibration inside its carrier-search hold. */
  method CalibrateHeld(p: Phy, engines: Pair<PapdSearch.Engine>)
    requires Room(p.hold, 2)
    modifies p`hold, p`bbcfg, p`en, p`vals, p`lpfOwned, p`multSave, p`playing, p`chains, p`pwrIdxAtGain
    modifies p`power, p`adjPwrHw, p`enables
    modifies p`afectl, p`afeover, p`pwrup, p`atten, p`papdEn, p`calShift, p`swept
    ensures CS.Kept(old(p.hold), p.hold) && p.bbcfg == old(p.bbcfg).(rstcca := false, rstrx := false)
    ensures p.en == GivenBack(old(p.en)) && p.multSave.None? && !p.lpfOwned
    ensures p.afectl == old(p.afectl) && p.atten == old(p.atten) && p.pwrup == Pair(0, 0)
    ensures p.chains == Afterwards(p, old(p.chains), old(p.power).ctrl) && p.pwrIdxAtGain == old(p.pwrIdxAtGain)
    ensures p.papdEn == ComparesAfterwards(p, old(p.papdEn), old(p.chains), old(p.power).ctrl) && p.calShift == Pair(false, false)
    ensures PowerBracket(old(p.power), p.power) && Counted(old(p.power), old(p.enables), p.enables)
    ensures p.afeover == AfeAfter(old(p.power), old(p.afeover))
    ensures BothMeasured(old(p.swept), p.swept, engines)
  {
    hide BothMeasured, OnInternal, OffsetsOnInternal;
    p.bbcfg := p.bbcfg.(rstcca := true);
    p.bbcfg := p.bbcfg.(rstcca := false, rstrx := false);
    var bbcfg := p.bbcfg;
    p.bbcfg := p.bbcfg.(rstrx := false);
    Bracketed(p, engines, bbcfg);
    FreedForced(old(p.afeover));
    SettleChains(p);
  }

  /** The chains after a calibration: cell 95 follows cell 87, and with the control off both go back on their index. */
  function Afterwards(p: Phy, c: ForcedIndex.Chains, ctrl: bool): ForcedIndex.Chains
    reads p`gainTbl, p`iqTbl, p`loTbl
  {
    var c := c.(m95 := c.m87);
    if ctrl then c else OnInternal(p, c)
  }

  /** And the comparison registers: on for both, the offsets those of the indices the chains are on if they were put back. */
  function ComparesAfterwards(p: Phy, en: Pair<PapdEn>, c: ForcedIndex.Chains, ctrl: bool): Pair<PapdEn>
    reads p`gainTbl, p`iqTbl, p`loTbl, p`offsetTbl
  {
    var on := p.PapdControlled(BothCompare(en), ctrl);
    if ctrl then on else OffsetsOnInternal(p, on, c.(m95 := c.m87))
  }

  lemma ComparisonOn(p: Phy, en: Pair<PapdEn>, c: ForcedIndex.Chains, ctrl: bool)
    ensures var after := ComparesAfterwards(p, en, c, ctrl); after.c0.compare && after.c1.compare
  {
    hide ForcedIndex.Moved;
  }

  lemma AfterwardsKeepsCompensation(p: Phy, c: ForcedIndex.Chains, ctrl: bool)
    ensures ForcedIndex.SameCompensation(c, Afterwards(p, c, ctrl))
  {
    var c := c.(m95 := c.m87);
    var c1 := p.Indexed(c, 1, c.saved.c0.internal, false, 2);
    p.IndexedKeepsCompensation(c, 1, c.saved.c0.internal);
    p.IndexedKeepsCompensation(c1, 2, c1.saved.c1.internal);
  }

  /** The calibration with its hold around it. */
  method CalibrateHolding(p: Phy, engines: Pair<PapdSearch.Engine>)
    requires Room(p.hold, 3)
    modifies p`hold, p`bbcfg, p`en, p`vals, p`lpfOwned, p`multSave, p`playing, p`chains, p`pwrIdxAtGain
    modifies p`power, p`adjPwrHw, p`enables
    modifies p`afectl, p`afeover, p`pwrup, p`atten, p`papdEn, p`calShift, p`swept
    ensures CS.Kept(old(p.hold), p.hold) && p.bbcfg == old(p.bbcfg).(rstcca := false, rstrx := false)
    ensures p.en == GivenBack(old(p.en)) && p.multSave.None? && !p.lpfOwned
    ensures p.afectl == old(p.afectl) && p.atten == old(p.atten) && p.pwrup == Pair(0, 0)
    ensures p.chains == Afterwards(p, old(p.chains), old(p.power).ctrl)
    ensures p.pwrIdxAtGain == old(p.pwrIdxAtGain)
    ensures p.papdEn == ComparesAfterwards(p, old(p.papdEn), old(p.chains), old(p.power).ctrl) && p.calShift == Pair(false, false)
    ensures PowerBracket(old(p.power), p.power) && Counted(old(p.power), old(p.enables), p.enables)
    ensures p.afeover == AfeAfter(old(p.power), old(p.afeover))
    ensures BothMeasured(old(p.swept), p.swept, engines)
  {
    hide Afterwards, ComparesAfterwards, BothMeasured;
    p.StayInCarrierSearch(true);
    CalibrateHeld(p, engines);
    p.StayInCarrierSearch(false);
  }

  /**
  b43_nphy_papd_cal, 2 GHz.  The receive reset is not put back: the pulse has
  already cleared it when it is saved, so BBCFG comes out as it went in exactly
  when both reset bits were clear.
  */
  method PapdCal(p: Phy, engines: Pair<PapdSearch.Engine>)
    requires Room(p.hold, 3)
    modifies p`hold, p`bbcfg, p`en, p`vals, p`lpfOwned, p`multSave, p`playing, p`chains, p`pwrIdxAtGain
    modifies p`power, p`adjPwrHw, p`enables
    modifies p`afectl, p`afeover, p`pwrup, p`atten, p`papdEn, p`calShift, p`swept
    ensures !p.ipa ==> unchanged(p)
    ensures CS.Kept(old(p.hold), p.hold) && p.pwrIdxAtGain == old(p.pwrIdxAtGain)
    ensures p.afectl == old(p.afectl) && p.atten == old(p.atten)
    ensures p.ipa ==> p.bbcfg == old(p.bbcfg).(rstcca := false, rstrx := false)
    ensures p.ipa ==> (p.bbcfg == old(p.bbcfg) <==> !old(p.bbcfg).rstcca && !old(p.bbcfg).rstrx)
    ensures p.ipa ==> p.en == GivenBack(old(p.en)) && p.multSave.None? && !p.lpfOwned && p.pwrup == Pair(0, 0)
    ensures p.ipa ==> p.chains == Afterwards(p, old(p.chains), old(p.power).ctrl)
    ensures p.ipa ==> p.papdEn.c0.compare && p.papdEn.c1.compare && p.calShift == Pair(false, false)
    ensures p.ipa ==> p.papdEn == ComparesAfterwards(p, old(p.papdEn), old(p.chains), old(p.power).ctrl)
    ensures p.ipa ==> PowerBracket(old(p.power), p.power) && Counted(old(p.power), old(p.enables), p.enables)
    ensures p.ipa ==> p.afeover == AfeAfter(old(p.power), old(p.afeover))
    ensures p.ipa ==> BothMeasured(old(p.swept), p.swept, engines)
  {
    hide Afterwards, ComparesAfterwards, BothMeasured;
    if p.ipa {
      ComparisonOn(p, p.papdEn, p.chains, p.power.ctrl);
      CalibrateHolding(p, engines);
    }
  }
}
