/**
The deferred periodic calibration: force an index, take the gains, hand the
chains back, run the phases with power control off, and put the chains and the
control back at the end.
*/
module PeriodicCalibration {
  import opened Pairs
  import opened RfOverride
  import opened NPhy
  import CS = CarrierSearch
  import SP = SamplePlayback
  import ForcedIndex
  import RatePower
  import PapdSearch
  import RssiVcm
  import RxGainSearch
  import TxGains
  import PapdCalibration
  import IqCalibration

  const INIT := 1
  const TXPHASE0 := 2
  const TXPHASE5 := 7
  const PAPDCAL := 8
  const RXCAL := 9
  const RSSICAL := 10
  const IDLETSSI := 11

  const PRECAL_INDEX := 10

  /** What the hardware will answer: the transmit compensation; the PAPD engine, power meter and RSSI readings of each core. */
  datatype Bench = Bench(tx: IqCalibration.TxResult, engines: Pair<PapdSearch.Engine>,
                         meters: Pair<RxGainSearch.Meter>, readings: Pair<RssiVcm.Readings>)

  /** Interface control, gain cells of table 8, radio, attenuators, BBCFG but for its reset bits, RF sequence. */
  datatype Loan = Loan(intc: Pair<Bits>, gain8: Pair<nat>, txRadio: Pair<TxRadio>, atten: Pair<nat>, bbcfg: nat, seqCa: SeqCa)

  /** What the calibrations borrow of the PHY and give back whole. */
  function Borrowed(p: Phy): Loan
    reads p`intc, p`gain8, p`txRadio, p`atten, p`bbcfg, p`seqCa
  {
    Loan(p.intc, p.gain8, p.txRadio, p.atten, p.bbcfg.rest, p.seqCa)
  }

  // ---------------------------------------------------------------- the last phase

  /** b43_nphy_rssi_select with nothing selected. */
  method RssiSelectNone(p: Phy)
    modifies p`afeover, p`afectl
    ensures p.afeover == Pair(old(p.afeover).c0 - {9}, old(p.afeover).c1 - {9})
    ensures p.afectl == Pair(old(p.afectl).c0 - {8, 9}, old(p.afectl).c1 - {8, 9})
    ensures AfeForced(old(p.afeover)) == old(p.afeover) ==> AfeForced(p.afeover) == p.afeover
  {
    p.afeover := Pair(p.afeover.c0 - {9}, p.afeover.c1);
    p.afeover := Pair(p.afeover.c0, p.afeover.c1 - {9});
    p.afectl := Pair(p.afectl.c0 - {8, 9}, p.afectl.c1);
    p.afectl := Pair(p.afectl.c0, p.afectl.c1 - {8, 9});
    KeepsBit8(old(p.afeover).c0);
    KeepsBit8(old(p.afeover).c1);
  }

  lemma KeepsBit8(x: Bits)
    ensures x + {8} == x ==> (x - {9}) + {8} == x - {9}
  {
    if x + {8} == x {
      assert 8 in x + {8};
    }
  }

  /** The idle signal strength is read at the chains' multiplier, the transmit gain of both cores overridden to nothing. */
  method PollIdle(p: Phy, ghost mult: SP.Mult)
    requires p.playing && p.chains.m87 == mult
    requires 12 in p.en.o0.c0 && 12 in p.en.o0.c1 && BothHold(p.vals, {Setting(0x1000, 0, 0)})
    modifies p`idlePolls
    ensures p.idlePolls == old(p.idlePolls) + 1
  {
    p.idlePolls := p.idlePolls + 1;
  }

  /** A tone of its own for it, whatever played before. */
  method IdleTone(p: Phy)
    requires Room(p.hold, 1)
    modifies p`hold, p`bbcfg, p`en, p`vals, p`lpfOwned, p`multSave, p`playing, p`chains, p`idlePolls
    ensures CS.Kept(old(p.hold), p.hold) && Pulsed(old(p.bbcfg), p.bbcfg)
    ensures p.multSave.None? && (old(p.multSave).None? ==> p.chains == old(p.chains))
    ensures p.en.o0 == Overridden(old(p.en), 0x1000, 3, false, 0).o0 && p.en.o2 == old(p.en).o2
    ensures p.idlePolls == old(p.idlePolls) + 1
  {
    hide BothHold, Valued;
    ghost var idle := {Setting(0x1000, 0, 0)};
    IqCalibration.Nothing(p.vals);
    p.OverrideBoth(0x1000, 0, 3, 0, {});
    assert {} + idle == idle;
    BothKeep(p.vals, 0x80, 0, 0, true, 1, idle);
    p.StopPlayback();
    ghost var mult := p.chains.m87;
    IqCalibration.PlayTone(p, idle);
    PollIdle(p, mult);
    IqCalibration.StopTone(p, idle);
  }

  /** b43_nphy_tx_power_ctl_idle_tssi; nothing at all on a channel that must not transmit. */
  method IdleTssi(p: Phy, noIr: bool)
    requires Room(p.hold, 1)
    modifies p`hold, p`bbcfg, p`en, p`vals, p`lpfOwned, p`multSave, p`playing, p`chains, p`afeover, p`afectl, p`idlePolls
    ensures noIr ==> unchanged(p)
    ensures CS.Kept(old(p.hold), p.hold) && Pulsed(old(p.bbcfg), p.bbcfg)
    ensures AfeForced(old(p.afeover)) == old(p.afeover) ==> AfeForced(p.afeover) == p.afeover
    ensures old(p.multSave).None? ==> p.chains == old(p.chains) && p.multSave.None?
    ensures !noIr ==> p.en.o0 == Pair(old(p.en).o0.c0 - {12}, old(p.en).o0.c1 - {12}) && p.en.o2 == old(p.en).o2
    ensures !noIr ==> p.afeover == Pair(old(p.afeover).c0 - {9}, old(p.afeover).c1 - {9})
    ensures !noIr ==> p.afectl == Pair(old(p.afectl).c0 - {8, 9}, old(p.afectl).c1 - {8, 9})
    ensures p.idlePolls == Polled(old(p.idlePolls), noIr)
  {
    if noIr { return; }
    IdleTone(p);
    RssiSelectNone(p);
    p.Override(0x1000, 0, 3, true, 0);
    IqCalibration.OneBit(old(p.en).o0.c0, 12);
    IqCalibration.OneBit(old(p.en).o0.c1, 12);
  }

  /** One more reading, on a channel that may transmit. */
  function Polled(polls: nat, noIr: bool): nat {
    if noIr then polls else polls + 1
  }

  /** b43_nphy_tx_prepare_adjusted_power_table, as a table. */
  function Adjusted(offsets: Offsets, wide: bool): seq<int> {
    seq(RatePower.CELLS, j requires 0 <= j < RatePower.CELLS => offsets[RatePower.CellRate(j, wide, 8)])
  }

  /** b43_nphy_tx_power_ctl_setup; its 64-cell tables are those of TssiTable. */
  method CtlSetup(p: Phy)
    requires Room(p.hold, 1)
    modifies p`hold, p`bbcfg, p`power, p`adjPwrTbl, p`adjPwrHw
    ensures CS.Kept(old(p.hold), p.hold) && Pulsed(old(p.bbcfg), p.bbcfg)
    ensures p.power == old(p.power).(cmd := old(p.power).cmd.(pctl := false), init := Pair(0x19, 0x19))
    ensures p.adjPwrTbl == Adjusted(p.powerOffset, p.wide) && p.adjPwrHw == Pair(p.adjPwrTbl, p.adjPwrTbl)
  {
    p.AvoidHang(true);
    p.power := p.power.(cmd := p.power.cmd.(pctl := false));
    p.power := p.power.(init := Pair(0x19, p.power.init.c1));
    p.power := p.power.(init := Pair(p.power.init.c0, 0x19));
    p.adjPwrTbl := Adjusted(p.powerOffset, p.wide);
    p.adjPwrHw := p.adjPwrHw.Set(0, p.adjPwrTbl);
    p.adjPwrHw := p.adjPwrHw.Set(1, p.adjPwrTbl);
    p.AvoidHang(false);
  }

  // ---------------------------------------------------------------- coefficients

  /** The measured compensation of a chain as a cell of the power control tables. */
  function IqWord(iq: (int, int)): nat {
    iq.0 % 0x400 * 0x400 + iq.1 % 0x400
  }

  /** 128 equal cells. */
  ghost predicate Filled(cells: Registers, word: nat, n: nat) {
    forall j :: 0 <= j < n ==> Value(cells, j) == word
  }

  /** The cells of an index are 128; the ones after them belong to something else. */
  ghost predicate SameBeyond(cells: Registers, filled: Registers) {
    forall j :: j >= 128 ==> Value(filled, j) == Value(cells, j)
  }

  method Fill(cells: Registers, word: nat) returns (filled: Registers)
    ensures Filled(filled, word, 128) && SameBeyond(cells, filled)
  {
    filled := cells;
    for j := 0 to 128
      invariant Filled(filled, word, j) && SameBeyond(cells, filled)
    {
      ghost var before := filled;
      filled := filled[j := word];
      forall k | 0 <= k <= j ensures Value(filled, k) == word {
        if k < j { assert Value(before, k) == word; }
      }
    }
  }

  /** b43_nphy_tx_pwr_ctrl_coef_setup: every index of a chain gets the measured coefficients. */
  method CoefSetup(p: Phy)
    requires Room(p.hold, 1)
    modifies p`hold, p`bbcfg, p`iqTbl, p`loTbl
    ensures CS.Kept(old(p.hold), p.hold) && Pulsed(old(p.bbcfg), p.bbcfg)
    ensures Loaded(p)
    ensures SameBeyond(old(p.iqTbl).c0, p.iqTbl.c0) && SameBeyond(old(p.iqTbl).c1, p.iqTbl.c1)
    ensures SameBeyond(old(p.loTbl).c0, p.loTbl.c0) && SameBeyond(old(p.loTbl).c1, p.loTbl.c1)
  {
    p.AvoidHang(true);
    var cells := Fill(p.iqTbl.c0, IqWord(p.chains.iq.c0));
    p.iqTbl := p.iqTbl.Set(0, cells);
    cells := Fill(p.iqTbl.c1, IqWord(p.chains.iq.c1));
    p.iqTbl := p.iqTbl.Set(1, cells);
    cells := Fill(p.loTbl.c0, Half(p.chains.lo85.c0));
    p.loTbl := p.loTbl.Set(0, cells);
    cells := Fill(p.loTbl.c1, Half(p.chains.lo85.c1));
    p.loTbl := p.loTbl.Set(1, cells);
    p.AvoidHang(false);
  }

  /** Every index of both chains selects the coefficients the chain has in its cells. */
  ghost predicate Loaded(p: Phy)
    reads p`iqTbl, p`loTbl, p`chains
  {
    && Filled(p.iqTbl.c0, IqWord(p.chains.iq.c0), 128) && Filled(p.iqTbl.c1, IqWord(p.chains.iq.c1), 128)
    && Filled(p.loTbl.c0, Half(p.chains.lo85.c0), 128) && Filled(p.loTbl.c1, Half(p.chains.lo85.c1), 128)
  }

  /** So whatever index is forced later, its compensations are the measured ones. */
  lemma AnyIndexCompensates(gain: Registers, iqCells: Registers, loCells: Registers, iq: (int, int), lo: int, index: nat)
    requires index < 128 && Filled(iqCells, IqWord(iq), 128) && Filled(loCells, Half(lo), 128)
    ensures var t := ForcedIndex.Decode(Word(gain, index), Word(iqCells, index), Word(loCells, index));
            t.iq == (iq.0 % 0x400, iq.1 % 0x400) && t.lo == lo % 0x10000
  {
    assert Value(iqCells, index) == IqWord(iq) && Value(loCells, index) == Half(lo);
    BothParts(iq.0 % 0x400, iq.1 % 0x400);
  }

  lemma BothParts(a: nat, b: nat)
    requires a < 0x400 && b < 0x400
    ensures var w := (a * 0x400 + b) % 0x1_0000_0000;
            w / 0x400 % 0x400 == a && w % 0x400 == b
  {
  }

  // ---------------------------------------------------------------- the phases

  /** The DAC gain and both multiplier halves of a chain are those of an index of the gain table. */
  ghost predicate Drives(p: Phy, core: nat, index: nat)
    reads p`chains, p`gainTbl
  {
    DrivenOn(p, p.chains, core, index)
  }

  ghost predicate DrivenOn(p: Phy, c: ForcedIndex.Chains, core: nat, index: nat)
    reads p`gainTbl
  {
    var t := ForcedIndex.Decode(Word(p.gainTbl.Get(core), index), 0, 0);
    c.dac.Get(core) == t.dac && c.m87.Get(core) == t.bbmult && c.m95.Get(core) == t.bbmult
  }

  /** The receiving chains are where the receive calibration left them. */
  ghost predicate OnLadder(p: Phy)
    reads p`chains, p`gainTbl, p`seqCa
  {
    && (IqCalibration.Receives(p.seqCa, 0) ==> Drives(p, 0, IqCalibration.LADDER_INDEX))
    && (IqCalibration.Receives(p.seqCa, 1) ==> Drives(p, 1, IqCalibration.LADDER_INDEX))
  }

  /** What every phase keeps: the hold, power control off with its saved indices, and no switching on in between. */
  twostate predicate Undisturbed(p: Phy)
    reads p`hold, p`power, p`afeover, p`enables
  {
    && CS.Kept(old(p.hold), p.hold)
    && p.Quiet() && p.power.idx == old(p.power).idx
    && p.enables == old(p.enables)
  }

  /** b43_mac_enable around a write of the CTS duration, and b43_mac_suspend after it. */
  method WriteCtsDuration(p: Phy, duration: nat)
    modifies p`mac, p`ctsDur, p`ctsWhileRunning
    ensures p.mac == old(p.mac) && p.ctsDur == duration
    ensures p.ctsWhileRunning <==> old(p.ctsWhileRunning) && old(p.mac) <= 1
  {
    p.mac := p.mac - 1;
    p.ctsDur := duration;
    p.ctsWhileRunning := p.ctsWhileRunning && p.mac <= 0;
    p.mac := p.mac + 1;
  }

  method TxPhase(p: Phy, target: Pair<TxGains.Gains>, result: IqCalibration.TxResult) returns (failed: bool)
    requires Room(p.hold, 2) && p.Quiet()
    modifies p`hold, p`bbcfg, p`en, p`vals, p`lpfOwned, p`multSave, p`playing, p`chains, p`hangAvoid
    modifies p`afectl, p`afeover, p`gain8, p`intc, p`trsw, p`papdEn, p`txRadio, p`tones
    ensures Borrowed(p) == old(Borrowed(p))
    ensures Undisturbed(p) && p.hangAvoid == old(p.hangAvoid)
    ensures p.tones == if failed then old(p.tones) else old(p.tones) + [Transmit(IqCalibration.CalGains(target), p.txcalMult)]
    ensures failed ==> p.chains == old(p.chains)
    ensures !failed ==> p.multSave.None? && IqCalibration.Compensated(p.chains, result)
  {
    failed := IqCalibration.CalTxIqLo(p, target, result);
  }

  method PapdSteps(p: Phy, engines: Pair<PapdSearch.Engine>)
    requires Room(p.hold, 3) && p.Quiet() && p.multSave.None?
    modifies p`hold, p`bbcfg, p`en, p`vals, p`lpfOwned, p`multSave, p`playing, p`chains, p`pwrIdxAtGain
    modifies p`power, p`adjPwrHw, p`enables
    modifies p`afectl, p`afeover, p`pwrup, p`atten, p`papdEn, p`calShift, p`swept
    ensures Borrowed(p) == old(Borrowed(p))
    ensures Undisturbed(p) && p.pwrIdxAtGain == old(p.pwrIdxAtGain) && p.multSave.None?
    ensures p.ipa ==> p.en == PapdCalibration.GivenBack(old(p.en))
    ensures ForcedIndex.SameCompensation(old(p.chains), p.chains)
    ensures p.ipa ==> PapdCalibration.BothMeasured(old(p.swept), p.swept, engines)
    ensures !p.ipa ==> p.swept == old(p.swept)
    ensures p.ipa ==> p.papdEn.c0.compare && p.papdEn.c1.compare && p.calShift == Pair(false, false)
  {
    hide PapdCalibration.Afterwards, PapdCalibration.ComparesAfterwards, PapdCalibration.BothMeasured, PapdCalibration.GivenBack;
    var _ := p.PwrCtlOpen();
    FreedForced(old(p.afeover));
    PapdCalibration.PapdCal(p, engines);
    PapdCalibration.AfterwardsKeepsCompensation(p, old(p.chains), old(p.power).ctrl);
  }

  method PapdPhase(p: Phy, engines: Pair<PapdSearch.Engine>)
    requires Room(p.hold, 3) && p.Quiet() && p.multSave.None?
    modifies p`hold, p`bbcfg, p`en, p`vals, p`lpfOwned, p`multSave, p`playing, p`chains, p`pwrIdxAtGain
    modifies p`power, p`adjPwrHw, p`enables, p`mac, p`ctsDur, p`ctsWhileRunning
    modifies p`afectl, p`afeover, p`pwrup, p`atten, p`papdEn, p`calShift, p`swept
    ensures Borrowed(p) == old(Borrowed(p))
    ensures Undisturbed(p) && p.pwrIdxAtGain == old(p.pwrIdxAtGain) && p.multSave.None?
    ensures p.ctsDur == 31000
    ensures p.ipa ==> p.en == PapdCalibration.GivenBack(old(p.en))
    ensures ForcedIndex.SameCompensation(old(p.chains), p.chains)
    ensures p.ipa ==> PapdCalibration.BothMeasured(old(p.swept), p.swept, engines)
    ensures !p.ipa ==> p.swept == old(p.swept)
    ensures p.ipa ==> p.papdEn.c0.compare && p.papdEn.c1.compare && p.calShift == Pair(false, false)
    ensures p.mac == old(p.mac) && (old(p.ctsWhileRunning) && old(p.mac) <= 1 ==> p.ctsWhileRunning)
  {
    hide PapdCalibration.BothMeasured, PapdCalibration.GivenBack, Borrowed;
    WriteCtsDuration(p, 31000);
    PapdSteps(p, engines);
  }

  method RxIqStep(p: Phy, target: Pair<TxGains.Gains>, meters: Pair<RxGainSearch.Meter>)
    requires Room(p.hold, 3) && p.Quiet() && p.multSave.None?
    modifies p`hold, p`bbcfg, p`en, p`vals, p`lpfOwned, p`multSave, p`playing, p`chains
    modifies p`power, p`adjPwrHw, p`enables
    modifies p`afectl, p`afeover, p`pwrup, p`atten, p`papdEn, p`seqCa, p`intc, p`trsw, p`tones
    ensures IqCalibration.RxMeasured(p, meters, old(p.tones), p.tones, IqCalibration.CalGains(target), old(p.seqCa))
    ensures Borrowed(p) == old(Borrowed(p))
    ensures Undisturbed(p) && p.multSave.None? && p.seqCa == old(p.seqCa) && OnLadder(p)
    ensures ForcedIndex.SameCompensation(old(p.chains), p.chains)
  {
    hide IqCalibration.RxMeasured;
    IqCalibration.CalRxIq(p, target, meters);
    LeavesOnLadder(p, old(p.chains), IqCalibration.CalGains(target), old(p.seqCa));
  }

  /** b43_nphy_save_cal: everything it does to the state of this model is its hold. */
  method SaveCal(p: Phy)
    requires Room(p.hold, 1)
    modifies p`hold, p`bbcfg
    ensures CS.Kept(old(p.hold), p.hold) && Pulsed(old(p.bbcfg), p.bbcfg)
  {
    p.AvoidHang(true);
    p.AvoidHang(false);
  }

  /** Every receiving core is on the voltage and the offsets its readings call for. */
  ghost predicate RssiDone(p: Phy, readings: Pair<RssiVcm.Readings>)
    reads p`seqCa, p`rssi
  {
    && (IqCalibration.Receives(p.seqCa, 0) ==> RssiVcm.Calibrates(readings.c0, p.rssi.c0))
    && (IqCalibration.Receives(p.seqCa, 1) ==> RssiVcm.Calibrates(readings.c1, p.rssi.c1))
  }

  /** What follows the receive calibration in its phase. */
  method RxTail(p: Phy, readings: Pair<RssiVcm.Readings>)
    requires Room(p.hold, 1)
    modifies p`hold, p`bbcfg, p`iqTbl, p`loTbl, p`intc, p`trsw, p`en, p`vals, p`afeover, p`afectl, p`rssi
    ensures CS.Kept(old(p.hold), p.hold) && p.afeover == old(p.afeover)
    ensures Borrowed(p) == old(Borrowed(p))
    ensures Loaded(p)
    ensures RssiDone(p, readings)
  {
    SaveCal(p);
    CoefSetup(p);
    IqCalibration.RssiCal(p, readings);
  }

  /** What the receive phase leaves for the rest of the sequence. */
  ghost predicate Received(p: Phy, readings: Pair<RssiVcm.Readings>)
    reads p`chains, p`gainTbl, p`seqCa, p`iqTbl, p`loTbl, p`rssi
  {
    OnLadder(p) && Loaded(p) && RssiDone(p, readings)
  }

  method RxSteps(p: Phy, target: Pair<TxGains.Gains>, meters: Pair<RxGainSearch.Meter>, readings: Pair<RssiVcm.Readings>)
    requires Room(p.hold, 3) && p.Quiet() && p.multSave.None?
    modifies p`hold, p`bbcfg, p`en, p`vals, p`lpfOwned, p`multSave, p`playing, p`chains
    modifies p`power, p`adjPwrHw, p`enables
    modifies p`afectl, p`afeover, p`pwrup, p`atten, p`papdEn, p`seqCa, p`intc, p`trsw, p`iqTbl, p`loTbl, p`rssi
    modifies p`tones
    ensures IqCalibration.RxMeasured(p, meters, old(p.tones), p.tones, IqCalibration.CalGains(target), old(p.seqCa))
    ensures Borrowed(p) == old(Borrowed(p))
    ensures Undisturbed(p) && p.multSave.None? && p.seqCa == old(p.seqCa)
    ensures ForcedIndex.SameCompensation(old(p.chains), p.chains)
    ensures Received(p, readings)
  {
    hide IqCalibration.RxMeasured;
    RxIqStep(p, target, meters);
    RxTail(p, readings);
  }

  method RxPhase(p: Phy, target: Pair<TxGains.Gains>, meters: Pair<RxGainSearch.Meter>, readings: Pair<RssiVcm.Readings>)
    requires Room(p.hold, 3) && p.Quiet() && p.multSave.None?
    modifies p`hold, p`bbcfg, p`en, p`vals, p`lpfOwned, p`multSave, p`playing, p`chains
    modifies p`power, p`adjPwrHw, p`enables, p`mac, p`ctsDur, p`ctsWhileRunning
    modifies p`afectl, p`afeover, p`pwrup, p`atten, p`papdEn, p`seqCa, p`intc, p`trsw, p`iqTbl, p`loTbl, p`rssi
    modifies p`tones
    ensures IqCalibration.RxMeasured(p, meters, old(p.tones), p.tones, IqCalibration.CalGains(target), old(p.seqCa))
    ensures Borrowed(p) == old(Borrowed(p))
    ensures Undisturbed(p) && p.multSave.None? && p.seqCa == old(p.seqCa)
    ensures ForcedIndex.SameCompensation(old(p.chains), p.chains)
    ensures Received(p, readings) && p.ctsDur == 10000
    ensures p.mac == old(p.mac) && (old(p.ctsWhileRunning) && old(p.mac) <= 1 ==> p.ctsWhileRunning)
  {
    hide IqCalibration.RxMeasured;
    WriteCtsDuration(p, 10000);
    RxSteps(p, target, meters, readings);
  }

  lemma LeavesOnLadder(p: Phy, c: ForcedIndex.Chains, gains: Pair<int>, seqCa: SeqCa)
    requires p.chains == IqCalibration.RxLeaves(p, c, gains, seqCa) && p.seqCa == seqCa
    ensures OnLadder(p) && ForcedIndex.SameCompensation(c, p.chains)
  {
  }

  method IdlePhase(p: Phy, noIr: bool)
    requires Room(p.hold, 1) && p.Quiet() && p.multSave.None?
    modifies p`hold, p`bbcfg, p`en, p`vals, p`lpfOwned, p`multSave, p`playing, p`chains, p`afeover, p`afectl
    modifies p`power, p`adjPwrTbl, p`adjPwrHw, p`idlePolls
    ensures p.idlePolls == Polled(old(p.idlePolls), noIr)
    ensures Borrowed(p) == old(Borrowed(p))
    ensures Undisturbed(p) && p.multSave.None? && p.chains == old(p.chains)
    ensures p.adjPwrTbl == Adjusted(p.powerOffset, p.wide) && p.power.init == Pair(0x19, 0x19)
  {
    IdleTssi(p, noIr);
    CtlSetup(p);
  }

  // ---------------------------------------------------------------- the sequence

  /** The PAPD engine of both cores has run, core 0 first; with an external PA it does not run. */
  ghost predicate Swept(p: Phy, bench: Bench, runs: seq<Sweeping>)
    reads p`swept
  {
    if p.ipa then PapdCalibration.BothMeasured(runs, p.swept, bench.engines) else p.swept == runs
  }

  /** What had been measured before the phases, the gain words they calibrate at, and whether the channel may transmit. */
  datatype Start = Start(swept: seq<Sweeping>, tones: seq<Tone>, polls: nat, gains: Pair<int>, ladder: SP.Mult, noIr: bool)

  /** The I/Q measurements before phase `id`: none, then the transmit one, then those of the receiving cores as well. */
  ghost predicate IqProgress(p: Phy, id: nat, bench: Bench, start: Start)
    reads p`tones, p`gainTbl, p`seqCa
  {
    if id <= TXPHASE0 then p.tones == start.tones
    else if id <= RXCAL then p.tones == start.tones + [Transmit(start.gains, start.ladder)]
    else IqCalibration.RxMeasured(p, bench.meters, start.tones + [Transmit(start.gains, start.ladder)], p.tones, start.gains,
                                  p.seqCa)
  }

  /** What the phases before `id` have left, if none failed. */
  ghost predicate Progress(p: Phy, id: nat, bench: Bench, start: Start)
    reads p`chains, p`gainTbl, p`iqTbl, p`loTbl, p`seqCa, p`rssi, p`multSave
    reads p`ctsDur, p`swept, p`tones, p`adjPwrTbl, p`powerOffset, p`idlePolls
  {
    && (id > TXPHASE0 ==> p.multSave.None? && IqCalibration.Compensated(p.chains, bench.tx))
    && (id <= PAPDCAL ==> p.swept == start.swept)
    && (id > PAPDCAL ==> Swept(p, bench, start.swept))
    && IqProgress(p, id, bench, start)
    && p.idlePolls == (if id > IDLETSSI then Polled(start.polls, start.noIr) else start.polls)
    && (id > RXCAL ==> Received(p, bench.readings) && p.ctsDur == 10000)
    && (id > IDLETSSI ==> p.adjPwrTbl == Adjusted(p.powerOffset, p.wide))
  }

  method PapdStep(p: Phy, bench: Bench, ghost start: Start)
    requires Room(p.hold, 3) && p.Quiet() && Progress(p, PAPDCAL, bench, start)
    modifies p
    ensures Undisturbed(p) && SameAround(p) && p.phaseId == old(p.phaseId)
    ensures Progress(p, PAPDCAL + 1, bench, start)
  {
    hide IqCalibration.RxMeasured;
    PapdPhase(p, bench.engines);
  }

  method RxStep(p: Phy, target: Pair<TxGains.Gains>, bench: Bench, ghost start: Start)
    requires Room(p.hold, 3) && p.Quiet() && Progress(p, RXCAL, bench, start)
    requires start.gains == IqCalibration.CalGains(target) && start.ladder == p.txcalMult
    modifies p
    ensures Undisturbed(p) && SameAround(p) && p.phaseId == old(p.phaseId)
    ensures Progress(p, RXCAL + 1, bench, start)
  {
    hide Received, IqCalibration.RxMeasured;
    RxPhase(p, target, bench.meters, bench.readings);
  }

  method IdleStep(p: Phy, noIr: bool, bench: Bench, ghost start: Start)
    requires Room(p.hold, 3) && p.Quiet() && Progress(p, IDLETSSI, bench, start) && start.noIr == noIr
    modifies p
    ensures Undisturbed(p) && SameAround(p) && p.phaseId == old(p.phaseId)
    ensures Progress(p, IDLETSSI + 1, bench, start)
  {
    hide Received, IqCalibration.RxMeasured;
    IdlePhase(p, noIr);
  }

  /** One pass of the phase loop; `stop` when the transmit calibration failed. */
  method RunPhase(p: Phy, id: nat, target: Pair<TxGains.Gains>, bench: Bench, noIr: bool, ghost start: Start)
    returns (stop: bool)
    requires Room(p.hold, 3) && p.Quiet() && Progress(p, id, bench, start) && p.phaseId == id
    requires start.gains == IqCalibration.CalGains(target) && start.ladder == p.txcalMult && start.noIr == noIr
    modifies p
    ensures Undisturbed(p) && SameAround(p) && p.phaseId == old(p.phaseId)
    ensures stop ==> id == TXPHASE0 && p.swept == old(p.swept) && p.tones == old(p.tones) && p.idlePolls == old(p.idlePolls)
    ensures stop || id == INIT ==> p.chains == old(p.chains)
    ensures !stop ==> Progress(p, id + 1, bench, start)
  {
    stop := false;
    if id == TXPHASE0 {
      stop := TxPhase(p, target, bench.tx);
    } else if id == PAPDCAL {
      PapdStep(p, bench, start);
    } else if id == RXCAL {
      RxStep(p, target, bench, start);
    } else if id == IDLETSSI {
      IdleStep(p, noIr, bench, start);
    }
  }

  /** What the phases leave alone, and the CTS duration is only ever written while the MAC runs. */
  twostate predicate SameAround(p: Phy)
    reads p
  {
    && p.hangAvoid == old(p.hangAvoid) && p.mac == old(p.mac) && p.pwrIdxAtGain == old(p.pwrIdxAtGain)
    && p.seqCa == old(p.seqCa) && p.gainTbl == old(p.gainTbl) && p.pericalPending == old(p.pericalPending)
    && (old(p.ctsWhileRunning) && old(p.mac) <= 1 ==> p.ctsWhileRunning)
    && p.powerOffset == old(p.powerOffset) && p.txcalMult == old(p.txcalMult)
    && Borrowed(p) == old(Borrowed(p))
  }

  /**
  The phase loop of b43_nphy_cal_perical_phyinit.  A failed transmit calibration
  moves the phase number to the last one, so the loop ends there.
  */
  method RunPhases(p: Phy, target: Pair<TxGains.Gains>, bench: Bench, noIr: bool) returns (ghost failed: bool)
    requires Room(p.hold, 3) && p.Quiet()
    modifies p
    ensures Undisturbed(p) && SameAround(p)
    ensures failed ==>
              p.chains == old(p.chains) && p.swept == old(p.swept) && p.tones == old(p.tones) && p.idlePolls == old(p.idlePolls)
    ensures !failed ==> Progress(p, IDLETSSI + 1, bench,
                                 Start(old(p.swept), old(p.tones), old(p.idlePolls), IqCalibration.CalGains(target), p.txcalMult, noIr))
  {
    hide Received, Swept, IqCalibration.RxMeasured, IqCalibration.CalGains, IqCalibration.Compensated;
    ghost var start := Start(p.swept, p.tones, p.idlePolls, IqCalibration.CalGains(target), p.txcalMult, noIr);
    failed := false;
    var id := INIT;
    while id <= IDLETSSI
      invariant INIT <= id <= IDLETSSI + 1
      invariant Undisturbed(p) && SameAround(p)
      invariant failed ==> id == IDLETSSI + 1
      invariant failed || id <= TXPHASE0 ==>
                  p.chains == old(p.chains) && p.swept == old(p.swept) && p.tones == old(p.tones) && p.idlePolls == old(p.idlePolls)
      invariant !failed ==> Progress(p, id, bench, start)
      decreases IDLETSSI + 1 - id
    {
      p.phaseId := id;
      if TXPHASE0 < id <= TXPHASE5 {
        id := id + 1;
        continue;
      }
      var stop := RunPhase(p, id, target, bench, noIr, start);
      if stop {
        failed := true;
        id := IDLETSSI;
      }
      id := id + 1;
    }
  }

  /** A chain on an index of the gain table: gain cell, DAC gain, both multiplier halves, power offset, and the driver knows it. */
  ghost predicate Settled(p: Phy, core: nat, index: nat)
    reads p`chains, p`gainTbl, p`papdEn, p`offsetTbl
  {
    SettledOn(p, p.chains, p.papdEn, core, index)
  }

  ghost predicate SettledOn(p: Phy, c: ForcedIndex.Chains, en: Pair<PapdEn>, core: nat, index: nat)
    reads p`gainTbl, p`offsetTbl
  {
    && DrivenOn(p, c, core, index)
    && c.rad.Get(core) == ForcedIndex.Decode(Word(p.gainTbl.Get(core), index), 0, 0).rad
    && c.saved.Get(core).index == index
    && (p.ipa ==> en.Get(core).offset == Word(p.offsetTbl.Get(core), index) % 0x200)
  }

  /** One chain forced on an index; the other one stays where it is. */
  method PutBack(p: Phy, core: nat, index: nat, ghost other: nat)
    requires core < 2 && Room(p.hold, 2) && p.Quiet()
    modifies p`hold, p`bbcfg, p`power, p`adjPwrHw, p`enables, p`afeover, p`papdEn, p`chains
    ensures Borrowed(p) == old(Borrowed(p))
    ensures Undisturbed(p) && ForcedIndex.SameCompensation(old(p.chains), p.chains)
    ensures Settled(p, core, index) && (old(Settled(p, 1 - core, other)) ==> Settled(p, 1 - core, other))
  {
    hide Phy.Indexed, Phy.PapdIndexed, ForcedIndex.SameCompensation, SettledOn;
    ForcedSettles(p, p.chains, p.papdEn, core, index, other);
    p.TxpwrIndex(OnCore(core), index, false);
  }

  lemma ForcedSettles(p: Phy, c: ForcedIndex.Chains, en: Pair<PapdEn>, core: nat, index: nat, other: nat)
    requires core < 2
    ensures var d, e := p.Indexed(c, OnCore(core), index, false, 2), p.PapdIndexed(en, c.saved, OnCore(core), index, false, 2);
            && SettledOn(p, d, e, core, index) && ForcedIndex.SameCompensation(c, d)
            && (SettledOn(p, c, en, 1 - core, other) ==> SettledOn(p, d, e, 1 - core, other))
  {
  }

  /** Each chain forced on the index kept for it with the gains at the head. */
  method PutChainsBack(p: Phy)
    requires Room(p.hold, 2) && p.Quiet()
    modifies p`hold, p`bbcfg, p`power, p`adjPwrHw, p`enables, p`afeover, p`papdEn, p`chains
    ensures Borrowed(p) == old(Borrowed(p))
    ensures Undisturbed(p) && ForcedIndex.SameCompensation(old(p.chains), p.chains)
    ensures Settled(p, 0, p.pwrIdxAtGain.c0) && Settled(p, 1, p.pwrIdxAtGain.c1)
  {
    hide Settled, Borrowed;
    PutBack(p, 0, p.pwrIdxAtGain.c0, 0);
    PutBack(p, 1, p.pwrIdxAtGain.c1, p.pwrIdxAtGain.c0);
  }

  /** What a sequence that did not fail has achieved: every step has left its result. */
  ghost predicate Complete(p: Phy, bench: Bench, start: Start)
    reads p`chains, p`iqTbl, p`loTbl, p`gainTbl, p`seqCa, p`rssi, p`ctsDur, p`swept, p`tones, p`adjPwrTbl, p`powerOffset
    reads p`idlePolls
  {
    && IqCalibration.Compensated(p.chains, bench.tx) && Loaded(p) && RssiDone(p, bench.readings) && p.ctsDur == 10000
    && Swept(p, bench, start.swept) && IqProgress(p, IDLETSSI + 1, bench, start)
    && p.adjPwrTbl == Adjusted(p.powerOffset, p.wide) && p.idlePolls == Polled(start.polls, start.noIr)
  }

  /** The chains back on their indices if the control was on, and the control as it was. */
  method PowerBack(p: Phy, entry: bool)
    requires Room(p.hold, 2) && p.Quiet()
    modifies p`hold, p`bbcfg, p`power, p`adjPwrHw, p`enables, p`afeover, p`papdEn, p`chains
    ensures CS.Kept(old(p.hold), p.hold)
    ensures Borrowed(p) == old(Borrowed(p))
    ensures p.power.ctrl == entry && p.power.idx == old(p.power).idx
    ensures p.enables == (if entry then old(p.enables) + 1 else old(p.enables)) && p.power.cmd == if entry then ON else OFF
    ensures entry ==> p.adjPwrHw == Pair(p.adjPwrTbl, p.adjPwrTbl) && 8 !in p.afeover.c0 && 8 !in p.afeover.c1
    ensures entry && p.power.idx.c0 < UNSET && p.power.idx.c1 < UNSET ==> p.power.init == p.power.idx
    ensures entry ==> Settled(p, 0, p.pwrIdxAtGain.c0) && Settled(p, 1, p.pwrIdxAtGain.c1)
    ensures ForcedIndex.SameCompensation(old(p.chains), p.chains)
    ensures !entry ==> p.chains == old(p.chains)
  {
    if entry {
      PutChainsBack(p);
    }
    p.TxPowerCtrl(entry);
  }

  /** The end of the sequence: the control as it was and no phase under way.  What the phases achieved stays. */
  method CloseSequence(p: Phy, entry: bool, ghost done: bool, bench: Bench, ghost start: Start)
    requires Room(p.hold, 2) && p.Quiet()
    requires done ==> Complete(p, bench, start)
    modifies p`hold, p`bbcfg, p`power, p`adjPwrHw, p`enables, p`afeover, p`papdEn, p`chains, p`phaseId
    ensures CS.Kept(old(p.hold), p.hold) && p.phaseId == 0
    ensures Borrowed(p) == old(Borrowed(p))
    ensures p.power.ctrl == entry && p.power.idx == old(p.power).idx
    ensures p.enables == (if entry then old(p.enables) + 1 else old(p.enables)) && p.power.cmd == if entry then ON else OFF
    ensures entry ==> p.adjPwrHw == Pair(p.adjPwrTbl, p.adjPwrTbl) && 8 !in p.afeover.c0 && 8 !in p.afeover.c1
    ensures entry && p.power.idx.c0 < UNSET && p.power.idx.c1 < UNSET ==> p.power.init == p.power.idx
    ensures entry ==> Settled(p, 0, p.pwrIdxAtGain.c0) && Settled(p, 1, p.pwrIdxAtGain.c1)
    ensures done ==> Complete(p, bench, start)
    ensures !entry ==> p.chains == old(p.chains)
    ensures ForcedIndex.SameCompensation(old(p.chains), p.chains)
  {
    hide RssiDone, Settled, IqProgress, Swept;
    PowerBack(p, entry);
    p.phaseId := 0;
  }

  /** b43_nphy_cal_perical_phyinit, entered with the control already off. */
  method CalPericalPhyinit(p: Phy, target: Pair<TxGains.Gains>, bench: Bench, noIr: bool, entry: bool)
    returns (ghost failed: bool)
    requires Room(p.hold, 3) && p.Quiet()
    modifies p
    ensures CS.Kept(old(p.hold), p.hold) && SameAround(p) && p.phaseId == 0
    ensures p.power.ctrl == entry && p.power.idx == old(p.power).idx
    ensures p.enables == (if entry then old(p.enables) + 1 else old(p.enables)) && p.power.cmd == if entry then ON else OFF
    ensures entry ==> p.adjPwrHw == Pair(p.adjPwrTbl, p.adjPwrTbl) && 8 !in p.afeover.c0 && 8 !in p.afeover.c1
    ensures entry && p.power.idx.c0 < UNSET && p.power.idx.c1 < UNSET ==> p.power.init == p.power.idx
    ensures entry ==> Settled(p, 0, p.pwrIdxAtGain.c0) && Settled(p, 1, p.pwrIdxAtGain.c1)
    ensures !entry && failed ==> p.chains == old(p.chains)
    ensures failed ==> ForcedIndex.SameCompensation(old(p.chains), p.chains)
    ensures !entry && !failed ==> OnLadder(p)
    ensures failed ==> p.swept == old(p.swept) && p.tones == old(p.tones) && p.idlePolls == old(p.idlePolls)
    ensures !failed ==> Complete(p, bench,
                                 Start(old(p.swept), old(p.tones), old(p.idlePolls), IqCalibration.CalGains(target), p.txcalMult, noIr))
    ensures !failed && target == GainsAt(p, PRECAL_INDEX) ==> AtPrecal(p, old(p.tones))
  {
    hide AtPrecal, WordsAt, GainsAt, Settled, RssiDone, Loaded, Swept, IqProgress, IqCalibration.CalGains, IqCalibration.Compensated;
    ghost var start := Start(p.swept, p.tones, p.idlePolls, IqCalibration.CalGains(target), p.txcalMult, noIr);
    failed := RunPhases(p, target, bench, noIr);
    CloseSequence(p, entry, !failed, bench, start);
    if !failed && target == GainsAt(p, PRECAL_INDEX) {
      WordsRoundTrip(p, PRECAL_INDEX);
      AllAtPrecal(p, bench, start);
    }
  }

  /** b43_nphy_precal_txgain. */
  method PrecalTxgain(p: Phy)
    requires Room(p.hold, 2) && p.Quiet()
    modifies p`hold, p`bbcfg, p`power, p`adjPwrHw, p`enables, p`afeover, p`papdEn, p`chains, p`txcalMult
    ensures Borrowed(p) == old(Borrowed(p))
    ensures p.txcalMult == MultsAt(p, PRECAL_INDEX)
    ensures Undisturbed(p) && p.chains == p.Indexed(old(p.chains), 3, PRECAL_INDEX, false, 2)
  {
    p.TxpwrIndex(0x3, PRECAL_INDEX, false);
    p.txcalMult := p.chains.m87;
  }

  /** Force both chains, take the gains they would have there, and hand the chains back. */
  method TakeCalGains(p: Phy) returns (gains: Pair<TxGains.Gains>)
    requires Room(p.hold, 2) && p.Quiet()
    modifies p`hold, p`bbcfg, p`power, p`adjPwrHw, p`enables, p`afeover, p`papdEn, p`chains, p`txcalMult, p`pwrIdxAtGain
    ensures Undisturbed(p) && p.pwrIdxAtGain == old(p.pwrIdxAtGain)
    ensures Borrowed(p) == old(Borrowed(p))
    ensures gains == GainsAt(p, PRECAL_INDEX) && p.txcalMult == MultsAt(p, PRECAL_INDEX)
    ensures HandedBack(old(p.chains), p.chains) && ForcedIndex.SameCompensation(old(p.chains), p.chains)
  {
    hide HandedBack, GainsAt, MultsAt, Phy.Indexed, Phy.PapdIndexed, ForcedIndex.SameCompensation, TxGains.Unpack;
    PrecalTxgain(p);
    ForcedGains(p, old(p.chains));
    gains := p.GetTxGains();
    p.TxpwrIndex(1, -1, false);
    p.TxpwrIndex(2, -1, false);
    ForceAndHandBack(p, old(p.chains));
  }

  /** The gains both chains have on an index. */
  function GainsAt(p: Phy, index: nat): Pair<TxGains.Gains>
    reads p`gainTbl
  {
    Pair(TxGains.Unpack(Word(p.gainTbl.c0, index) / 0x10000), TxGains.Unpack(Word(p.gainTbl.c1, index) / 0x10000))
  }

  lemma ForcedRad(p: Phy, c: ForcedIndex.Chains)
    ensures p.Indexed(c, 3, PRECAL_INDEX, false, 2).rad
            == Pair(p.Target(0, PRECAL_INDEX).rad, p.Target(1, PRECAL_INDEX).rad)
  {
  }

  lemma ForcedGains(p: Phy, c: ForcedIndex.Chains)
    ensures var rad := p.Indexed(c, 3, PRECAL_INDEX, false, 2).rad;
            Pair(TxGains.Unpack(Half(rad.c0)), TxGains.Unpack(Half(rad.c1))) == GainsAt(p, PRECAL_INDEX)
  {
    ForcedRad(p, c);
    HighHalf(Word(p.gainTbl.c0, PRECAL_INDEX));
    HighHalf(Word(p.gainTbl.c1, PRECAL_INDEX));
  }

  lemma HighHalf(word: nat)
    requires word < 0x1_0000_0000
    ensures Half(word / 0x10000) == word / 0x10000
  {
  }

  /** The gain words of both chains on an index: the high halves of their gain cells. */
  function WordsAt(p: Phy, index: nat): Pair<int>
    reads p`gainTbl
  {
    Pair(Word(p.gainTbl.c0, index) / 0x10000, Word(p.gainTbl.c1, index) / 0x10000)
  }

  /** And their multipliers, the low bytes. */
  function MultsAt(p: Phy, index: nat): SP.Mult
    reads p`gainTbl
  {
    Pair(Word(p.gainTbl.c0, index) % 0x100, Word(p.gainTbl.c1, index) % 0x100)
  }

  lemma WordsRoundTrip(p: Phy, index: nat)
    ensures IqCalibration.CalGains(GainsAt(p, index)) == WordsAt(p, index)
  {
    TxGains.PackUnpack(Word(p.gainTbl.c0, index) / 0x10000);
    TxGains.PackUnpack(Word(p.gainTbl.c1, index) / 0x10000);
  }

  function Count(receives: bool): nat {
    if receives then 1 else 0
  }

  ghost predicate AtPrecal(p: Phy, before: seq<Tone>)
    reads p`tones, p`gainTbl, p`seqCa
  {
    && IqCalibration.MeasuredAt(before, p.tones, Pair(Word(p.gainTbl.c0, 10) / 0x10000, Word(p.gainTbl.c1, 10) / 0x10000))
    && |p.tones| > |before| + Count(IqCalibration.Receives(p.seqCa, 0)) + Count(IqCalibration.Receives(p.seqCa, 1))
  }

  /**
  Every I/Q measurement of a run that starts from the gains of index 10 is at
  those gains: the transmit one, and one or more of each receiving core.
  */
  lemma AllAtPrecal(p: Phy, bench: Bench, start: Start)
    requires start.gains == WordsAt(p, PRECAL_INDEX) && Complete(p, bench, start)
    ensures AtPrecal(p, start.tones)
  {
    hide IqCalibration.Walked, WordsAt, IqCalibration.Receives, Loaded, RssiDone, Swept;
    var gains, tx, r0, r1 := start.gains, start.tones + [Transmit(start.gains, start.ladder)],
      IqCalibration.Receives(p.seqCa, 0), IqCalibration.Receives(p.seqCa, 1);
    SameOnLadder(p, gains);
    var middle :|
      && IqCalibration.CoreMeasured(p, bench.meters.c0, tx, middle, gains, 0, r0)
      && IqCalibration.CoreMeasured(p, bench.meters.c1, middle, p.tones, gains, 1, r1);
    if r0 { IqCalibration.WalkedAt(bench.meters.c0, tx, middle, gains, 0); }
    if r1 { IqCalibration.WalkedAt(bench.meters.c1, middle, p.tones, gains, 1); }
  }

  lemma SameOnLadder(p: Phy, gains: Pair<int>)
    requires gains == WordsAt(p, PRECAL_INDEX)
    ensures IqCalibration.LadderGains(p, gains, 0) == gains && IqCalibration.LadderGains(p, gains, 1) == gains
  {
  }

  /** What a chain was on before anything was forced on it: gain cell, DAC gain, half of cell 87. */
  function Original(c: ForcedIndex.Chains, core: nat): (int, int, int) {
    var s := c.saved.Get(core);
    if s.index < 0 then (c.rad.Get(core), c.dac.Get(core), c.m87.Get(core)) else (s.rad, s.dac, s.bbmult)
  }

  /** Both chains are on what they were on before anything was forced on them, cell 95 in step with cell 87. */
  ghost predicate HandedBack(c: ForcedIndex.Chains, d: ForcedIndex.Chains) {
    forall core :: 0 <= core < 2 ==>
      && (d.rad.Get(core), d.dac.Get(core), d.m87.Get(core)) == Original(c, core)
      && d.m95.Get(core) == d.m87.Get(core)
  }

  /** A chain is on what it was found on. */
  ghost predicate AsFound(c: ForcedIndex.Chains, d: ForcedIndex.Chains, core: nat) {
    d.rad.Get(core) == c.rad.Get(core) && d.dac.Get(core) == c.dac.Get(core) && d.m87.Get(core) == c.m87.Get(core)
  }

  /** Nothing is forced on the chain, or it happens to be on what the first force found. */
  predicate NothingToUndo(c: ForcedIndex.Chains, core: nat) {
    var s := c.saved.Get(core);
    s.index < 0 || (s.rad == c.rad.Get(core) && s.dac == c.dac.Get(core) && s.bbmult == c.m87.Get(core))
  }

  /** What a hand-back changes: a chain is as found exactly when there was nothing to undo on it. */
  lemma AsFoundExactly(c: ForcedIndex.Chains, d: ForcedIndex.Chains, core: nat)
    requires core < 2 && HandedBack(c, d)
    ensures AsFound(c, d, core) <==> NothingToUndo(c, core)
  {
    assert (d.rad.Get(core), d.dac.Get(core), d.m87.Get(core)) == Original(c, core);
  }

  lemma ForceAndHandBack(p: Phy, c: ForcedIndex.Chains)
    ensures var d := p.Indexed(c, 3, PRECAL_INDEX, false, 2);
            var e := p.Indexed(p.Indexed(d, 1, -1, false, 2), 2, -1, false, 2);
            HandedBack(c, e) && ForcedIndex.SameCompensation(c, e)
  {
  }

  /** The head of the sequence: the gains, which keep the indices the chains are on, and the control off. */
  method OpenSequence(p: Phy) returns (entry: bool, calTarget: Pair<TxGains.Gains>)
    requires Room(p.hold, 2)
    modifies p`hold, p`bbcfg, p`power, p`adjPwrHw, p`enables, p`afeover, p`papdEn, p`chains, p`txcalMult, p`pwrIdxAtGain
    ensures CS.Kept(old(p.hold), p.hold) && p.Quiet() && p.enables == old(p.enables)
    ensures Borrowed(p) == old(Borrowed(p))
    ensures entry == old(p.power).ctrl
    ensures entry ==> p.pwrIdxAtGain.c0 < UNSET && p.pwrIdxAtGain.c1 < UNSET
    ensures old(p.power).cmd != OFF ==> p.power.idx.c0 < UNSET && p.power.idx.c1 < UNSET
    ensures calTarget == GainsAt(p, PRECAL_INDEX) && p.txcalMult == MultsAt(p, PRECAL_INDEX)
    ensures HandedBack(old(p.chains), p.chains) && ForcedIndex.SameCompensation(old(p.chains), p.chains)
  {
    var _ := p.GetTxGains();
    entry := p.power.ctrl;
    p.TxPowerCtrl(false);
    FreedForced(old(p.afeover));
    calTarget := TakeCalGains(p);
  }

  /**
  b43_nphy_run_pending_perical, radio 2057 rev 8, 2 GHz.  Whatever the hardware
  answers, and whether the transmit calibration fails or not:
  the hold, the MAC suspend count, hang avoidance and what the calibrations have
  borrowed are as they were, the phase number is 0 and nothing is pending; power control ends as it was on entry and,
  if it was on, has been switched on exactly once, at the end; and if it was on
  both chains end on the index read with the gains at the head.

  If it was off, nothing puts the chains back at the end.  After a failure they
  are on what they were on before anything was forced on them, which is what
  they were found on exactly if nothing was forced or the two agree; after a
  full run the receiving ones are on the ladder's index.

  A run that does not fail leaves every index of both chains with the measured
  coefficients, the receiving cores on the voltage and offsets their readings call
  for, both PAPD engines run and the adjusted power table of the rates, and every
  I/Q measurement of it was made at the gains of index 10.
  */
  method RunPendingPerical(p: Phy, bench: Bench, noIr: bool) returns (ghost failed: bool)
    requires Room(p.hold, 3)
    modifies p
    ensures !old(p.pericalPending) ==> unchanged(p)
    ensures !p.pericalPending
    ensures CS.Kept(old(p.hold), p.hold) && p.mac == old(p.mac) && p.hangAvoid == old(p.hangAvoid)
    ensures Borrowed(p) == old(Borrowed(p)) && p.gainTbl == old(p.gainTbl) && p.power.ctrl == old(p.power).ctrl
    ensures old(p.ctsWhileRunning) && old(p.mac) <= 1 ==> p.ctsWhileRunning
    ensures old(p.pericalPending) ==> p.phaseId == 0 && p.power.cmd == if p.power.ctrl then ON else OFF
    ensures old(p.pericalPending) ==> p.enables == if p.power.ctrl then old(p.enables) + 1 else old(p.enables)
    ensures old(p.pericalPending) && p.power.ctrl ==>
              && p.pwrIdxAtGain.c0 < UNSET && p.pwrIdxAtGain.c1 < UNSET
              && Settled(p, 0, p.pwrIdxAtGain.c0) && Settled(p, 1, p.pwrIdxAtGain.c1)
              && p.adjPwrHw == Pair(p.adjPwrTbl, p.adjPwrTbl) && 8 !in p.afeover.c0 && 8 !in p.afeover.c1
    ensures old(p.pericalPending) && p.power.ctrl && old(p.power).cmd != OFF ==> p.power.init == p.power.idx
    ensures old(p.pericalPending) && !p.power.ctrl && failed ==>
              && HandedBack(old(p.chains), p.chains)
              && (AsFound(old(p.chains), p.chains, 0) <==> NothingToUndo(old(p.chains), 0))
              && (AsFound(old(p.chains), p.chains, 1) <==> NothingToUndo(old(p.chains), 1))
    ensures old(p.pericalPending) && !p.power.ctrl && !failed ==> OnLadder(p)
    ensures failed ==> ForcedIndex.SameCompensation(old(p.chains), p.chains)
    ensures failed ==> p.swept == old(p.swept) && p.tones == old(p.tones) && p.idlePolls == old(p.idlePolls)
    ensures old(p.pericalPending) && !failed ==>
              Complete(p, bench,
                       Start(old(p.swept), old(p.tones), old(p.idlePolls), WordsAt(p, PRECAL_INDEX), MultsAt(p, PRECAL_INDEX), noIr))
    ensures old(p.pericalPending) && !failed ==> AtPrecal(p, old(p.tones))
  {
    hide Settled, Complete, OnLadder, AsFound, NothingToUndo, HandedBack, GainsAt, WordsAt, AtPrecal;
    hide IqCalibration.CalGains, AfeForced, AfeFreed, Borrowed;
    failed := false;
    if p.pericalPending {
      p.pericalPending := false;
      var entry, calTarget := OpenSequence(p);
      AsFoundExactly(old(p.chains), p.chains, 0);
      AsFoundExactly(old(p.chains), p.chains, 1);
      WordsRoundTrip(p, PRECAL_INDEX);
      failed := CalPericalPhyinit(p, calTarget, bench, noIr, entry);
    }
  }
}
