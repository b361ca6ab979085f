/**
The transmit I/Q and LO calibration, the receive I/Q calibration and the RSSI
calibration, as brackets: what each takes of the PHY and what it gives back.
*/
module IqCalibration {
  import opened Pairs
  import opened RfOverride
  import opened NPhy
  import CS = CarrierSearch
  import SP = SamplePlayback
  import ForcedIndex
  import RssiVcm
  import RxGainSearch
  import TxGains

  /** Both cores' calibration gain words: the gains put together again. */
  function CalGains(target: Pair<TxGains.Gains>): Pair<int> {
    Pair(TxGains.Pack(target.c0), TxGains.Pack(target.c1))
  }

  /** Whatever has been measured since `before` was measured with these gains. */
  ghost predicate MeasuredAt(before: seq<Tone>, after: seq<Tone>, gains: Pair<int>) {
    before <= after && forall n :: |before| <= n < |after| ==> after[n].gains == gains
  }

  // ---------------------------------------------------------------- transmit I/Q and LO

  /** tx_rx_cal_phy_saveregs, as the transmit calibration fills it. */
  datatype TxSaved = TxSaved(afectl: Pair<Bits>, afeover: Pair<Bits>, bbcfg: BbCfg, gain8: Pair<nat>,
                             intc: Pair<Bits>, papdEn: Pair<PapdEn>)

  /** The radio of a core during a transmit calibration: the detector registers, its multiplexer only for the internal one. */
  predicate Detects(r: TxRadio, useInt: bool) {
    && r.ssiMaster == 0x6 && r.vcmHg == 0x43 && r.idac == 0x55 && r.tssiVcm == 0 && r.tssia == 0 && r.misc1 == 0
    && (useInt ==> r.ssiMux == 0x6 && r.tssig == 0x31)
  }

  /** b43_nphy_tx_cal_radio_setup_rev7, 2 GHz. */
  method TxRadioSetup(p: Phy) returns (save: Pair<TxRadio>)
    modifies p`txRadio
    ensures save == old(p.txRadio)
    ensures Detects(p.txRadio.c0, p.useIntTxIqLoCal) && Detects(p.txRadio.c1, p.useIntTxIqLoCal)
    ensures !p.useIntTxIqLoCal ==> p.txRadio.c0.ssiMux == save.c0.ssiMux && p.txRadio.c0.tssig == save.c0.tssig
    ensures !p.useIntTxIqLoCal ==> p.txRadio.c1.ssiMux == save.c1.ssiMux && p.txRadio.c1.tssig == save.c1.tssig
  {
    save := p.txRadio;
    for core := 0 to 2
      invariant if core > 0 then Detects(p.txRadio.c0, p.useIntTxIqLoCal) else p.txRadio.c0 == save.c0
      invariant if core > 1 then Detects(p.txRadio.c1, p.useIntTxIqLoCal) else p.txRadio.c1 == save.c1
      invariant !p.useIntTxIqLoCal ==> p.txRadio.c0.ssiMux == save.c0.ssiMux && p.txRadio.c0.tssig == save.c0.tssig
      invariant !p.useIntTxIqLoCal ==> p.txRadio.c1.ssiMux == save.c1.ssiMux && p.txRadio.c1.tssig == save.c1.tssig
    {
      var r := p.txRadio.Get(core);
      r := r.(ssiMaster := 0x6, vcmHg := 0x43, idac := 0x55, tssiVcm := 0);
      r := r.(tssia := 0);
      if p.useIntTxIqLoCal {
        r := r.(ssiMux := 0x6, tssig := 0x31);
      }
      r := r.(misc1 := 0);
      p.txRadio := p.txRadio.Set(core, r);
    }
  }

  /** b43_nphy_tx_cal_radio_cleanup_rev7. */
  method TxRadioCleanup(p: Phy, save: Pair<TxRadio>)
    modifies p`txRadio
    ensures p.txRadio == save
  {
    for core := 0 to 2
      invariant core > 0 ==> p.txRadio.c0 == save.c0
      invariant core > 1 ==> p.txRadio.c1 == save.c1
    {
      p.txRadio := p.txRadio.Set(core, save.Get(core));
    }
  }

  /** Four bits of an AFE control register at 0xA. */
  function Listening(afectl: Bits): (after: Bits)
    ensures forall b :: b in after <==> b in {9, 11} || (b !in {8, 10} && b in afectl)
  {
    afectl - {8, 9, 10, 11} + {9, 11}
  }

  /** The AFE, BBCFG and gain cells of the transmit setup. */
  method TxTakeAnalog(p: Phy) returns (s: TxSaved)
    modifies p`afectl, p`afeover, p`bbcfg, p`gain8
    ensures s == TxSaved(old(p.afectl), old(p.afeover), old(p.bbcfg), old(p.gain8), p.intc, p.papdEn)
    ensures p.afectl == Pair(Listening(old(p.afectl).c0), Listening(old(p.afectl).c1))
    ensures p.afeover == Pair(old(p.afeover).c0 + {9, 10}, old(p.afeover).c1 + {9, 10})
    ensures p.bbcfg == old(p.bbcfg).(rstrx := false) && p.gain8 == Pair(0, 0)
  {
    s := TxSaved(p.afectl, p.afeover, p.bbcfg, p.gain8, p.intc, p.papdEn);
    p.afectl := Pair(Listening(p.afectl.c0), p.afectl.c1);
    p.afectl := Pair(p.afectl.c0, Listening(p.afectl.c1));
    p.afeover := Pair(p.afeover.c0 + {9, 10}, p.afeover.c1);
    p.afeover := Pair(p.afeover.c0, p.afeover.c1 + {9, 10});
    p.bbcfg := p.bbcfg.(rstrx := false);
    p.gain8 := p.gain8.Set(0, 0);
    p.gain8 := p.gain8.Set(1, 0);
  }

  /** The enable registers inside a transmit calibration. */
  function TxTaken(en: Enables, useInt: bool): Enables {
    var en := Overridden(en, 0x80, 0, false, 1);
    if useInt then Overridden(en, 0x8, 0x3, false, 0) else en
  }

  /** The interface control registers inside a transmit calibration; the 8 does not fit its two bits. */
  function TxInterface(intc: Pair<Bits>, useInt: bool): Pair<Bits> {
    var pa := if useInt then 0 else 1;
    Pair(Intc(Intc(intc.c0, Pa, pa), Trsw, 2), Intc(Intc(intc.c1, Pa, pa), Trsw, 8))
  }

  method TxTakeInterface(p: Phy)
    modifies p`intc, p`trsw
    ensures p.intc == TxInterface(old(p.intc), p.useIntTxIqLoCal)
  {
    p.IntcOverride(Pa, if p.useIntTxIqLoCal then 0 else 1, 3);
    p.IntcOverride(Trsw, 2, 1);
    p.IntcOverride(Trsw, 8, 2);
  }

  /** The PAPD comparison off on both cores, nothing else of the registers changed. */
  function Uncompared(en: Pair<PapdEn>): Pair<PapdEn> {
    Pair(en.c0.(compare := false), en.c1.(compare := false))
  }

  /** What the overrides of a transmit calibration hold on both cores. */
  function TxSettings(lpf: nat, useInt: bool): set<Setting> {
    {Setting(0x80, 1, lpf)} + if useInt then {Setting(0x8, 0, 0)} else {}
  }

  /**
  A core's receiver listens to its own transmitter: converters taken, interface
  control overridden, the amplifier on only for the external detector.
  */
  predicate Overheard(afectl: Bits, afeover: Bits, intc: Bits, useInt: bool) {
    && 8 !in afectl && 9 in afectl && 10 !in afectl && 11 in afectl && 9 in afeover && 10 in afeover
    && 12 in intc && (4 in intc <==> !useInt) && 5 !in intc && 10 in intc && 6 !in intc
  }

  /** Both cores are; the switch bits of core 1 are clear, for its 8 goes elsewhere. */
  ghost predicate BothOverheard(p: Phy)
    reads p`afectl, p`afeover, p`intc
  {
    && Overheard(p.afectl.c0, p.afeover.c0, p.intc.c0, p.useIntTxIqLoCal) && 7 in p.intc.c0
    && Overheard(p.afectl.c1, p.afeover.c1, p.intc.c1, p.useIntTxIqLoCal) && 7 !in p.intc.c1 && 9 in p.intc.c1
  }

  /** Everything the setup of a transmit calibration is for. */
  ghost predicate TxReady(p: Phy)
    reads p`papdEn, p`bbcfg, p`gain8, p`afectl, p`afeover, p`intc, p`txRadio, p`en, p`vals
  {
    && !p.papdEn.c0.compare && !p.papdEn.c1.compare && !p.bbcfg.rstrx && p.gain8 == Pair(0, 0)
    && BothOverheard(p) && BothHold(p.vals, TxSettings(p.ReadLpfCtl(), p.useIntTxIqLoCal))
    && Detects(p.txRadio.c0, p.useIntTxIqLoCal) && Detects(p.txRadio.c1, p.useIntTxIqLoCal)
    && 7 in p.en.o1.c0 && 7 in p.en.o1.c1 && (p.useIntTxIqLoCal ==> 3 in p.en.o0.c0 && 3 in p.en.o0.c1)
  }

  lemma Hears(afectl: Bits, afeover: Bits, intc: Pair<Bits>, useInt: bool)
    ensures var i := TxInterface(intc, useInt);
            && Overheard(Listening(afectl), afeover + {9, 10}, i.c0, useInt) && 7 in i.c0
            && Overheard(Listening(afectl), afeover + {9, 10}, i.c1, useInt) && 7 !in i.c1 && 9 in i.c1
  {
  }

  lemma Nothing(vals: Registers)
    ensures BothHold(vals, {})
  {
  }

  /** The overrides of the setup. */
  method TxTakeOverrides(p: Phy)
    modifies p`en, p`vals
    ensures p.en == TxTaken(old(p.en), p.useIntTxIqLoCal)
    ensures BothHold(p.vals, TxSettings(p.ReadLpfCtl(), p.useIntTxIqLoCal))
    ensures p.Playing() == SP.CalSetup(old(p.Playing()))
  {
    hide BothHold, Others;
    var bw := p.ReadLpfCtl();
    Nothing(p.vals);
    p.OverrideBoth(0x80, bw, 0, 1, {});
    assert {} + {Setting(0x80, 1, bw)} == TxSettings(bw, false);
    if p.useIntTxIqLoCal {
      p.OverrideBoth(0x8, 0, 0x3, 0, TxSettings(bw, false));
      assert TxSettings(bw, false) + {Setting(0x8, 0, 0)} == TxSettings(bw, true);
    }
  }

  /** b43_nphy_tx_cal_phy_setup. */
  method TxPhySetup(p: Phy) returns (s: TxSaved)
    modifies p`afectl, p`afeover, p`bbcfg, p`gain8, p`intc, p`trsw, p`papdEn, p`en, p`vals
    ensures s == TxSaved(old(p.afectl), old(p.afeover), old(p.bbcfg), old(p.gain8), old(p.intc), old(p.papdEn))
    ensures p.afectl == Pair(Listening(old(p.afectl).c0), Listening(old(p.afectl).c1))
    ensures p.afeover == Pair(old(p.afeover).c0 + {9, 10}, old(p.afeover).c1 + {9, 10})
    ensures p.gain8 == Pair(0, 0) && p.intc == TxInterface(old(p.intc), p.useIntTxIqLoCal)
    ensures p.papdEn == Uncompared(old(p.papdEn)) && p.bbcfg == old(p.bbcfg).(rstrx := false)
    ensures p.en == TxTaken(old(p.en), p.useIntTxIqLoCal)
    ensures BothHold(p.vals, TxSettings(p.ReadLpfCtl(), p.useIntTxIqLoCal))
  {
    hide Intc, TxInterface, Listening, BothHold, TxSettings, TxTaken;
    s := TxTakeAnalog(p);
    TxTakeInterface(p);
    p.papdEn := p.papdEn.Set(0, p.papdEn.c0.(compare := false));
    p.papdEn := p.papdEn.Set(1, p.papdEn.c1.(compare := false));
    TxTakeOverrides(p);
  }

  /** Radio and PHY set up for a transmit calibration. */
  method TxSetup(p: Phy) returns (radio: Pair<TxRadio>, s: TxSaved)
    modifies p`afectl, p`afeover, p`bbcfg, p`gain8, p`intc, p`trsw, p`papdEn, p`en, p`vals, p`txRadio
    ensures radio == old(p.txRadio)
    ensures s == TxSaved(old(p.afectl), old(p.afeover), old(p.bbcfg), old(p.gain8), old(p.intc), old(p.papdEn))
    ensures p.bbcfg == old(p.bbcfg).(rstrx := false)
    ensures p.en == TxTaken(old(p.en), p.useIntTxIqLoCal) && TxReady(p)
  {
    hide TxInterface, Listening, Overheard, BothHold, Detects;
    radio := TxRadioSetup(p);
    s := TxPhySetup(p);
    Hears(old(p.afectl).c0, old(p.afeover).c0, old(p.intc), p.useIntTxIqLoCal);
    Hears(old(p.afectl).c1, old(p.afeover).c1, old(p.intc), p.useIntTxIqLoCal);
    SevenTaken(old(p.en), p.useIntTxIqLoCal);
  }

  lemma SevenTaken(en: Enables, useInt: bool)
    ensures var t := TxTaken(en, useInt);
            7 in t.o1.c0 && 7 in t.o1.c1 && (useInt ==> 3 in t.o0.c0 && 3 in t.o0.c1)
  {
  }

  /** b43_nphy_tx_cal_phy_cleanup. */
  method TxPhyCleanup(p: Phy, s: TxSaved)
    modifies p`afectl, p`afeover, p`bbcfg, p`gain8, p`intc, p`papdEn, p`en, p`vals
    ensures p.afectl == s.afectl && p.afeover == s.afeover && p.bbcfg == s.bbcfg.(rstcca := false)
    ensures p.gain8 == s.gain8 && p.intc == s.intc && p.papdEn == s.papdEn
    ensures p.en == Overridden(old(p.en), 0x80, 0, true, 1) && p.Playing() == SP.CalCleanup(old(p.Playing()))
  {
    p.afectl := Pair(s.afectl.c0, s.afectl.c1);
    p.afeover := Pair(s.afeover.c0, s.afeover.c1);
    p.bbcfg := s.bbcfg;
    p.gain8 := Pair(s.gain8.c0, s.gain8.c1);
    p.intc := Pair(s.intc.c0, s.intc.c1);
    p.papdEn := Pair(s.papdEn.c0, s.papdEn.c1);
    p.Override(0x80, 0, 0, true, 1);
    p.ResetCca();
  }

  /** What the twelve commands come up with: the IQ and LO compensation of both chains. */
  datatype TxResult = TxResult(iq: Pair<(int, int)>, lo: Pair<int>)

  /** The compensation cells hold this result, the LO values in both their places. */
  predicate Compensated(c: ForcedIndex.Chains, result: TxResult) {
    c.iq == result.iq && c.lo85 == result.lo && c.lo93 == result.lo
  }

  /** The measurement itself: the twelve commands, the tone on at the chains' multiplier and with the gain cells' gains. */
  method TxCommands(p: Phy, ghost mult: SP.Mult)
    requires TxReady(p) && p.chains.m87 == mult && p.playing
    modifies p`tones
    ensures p.tones == old(p.tones) + [Transmit(p.chains.rad, p.txcalMult)]
  {
    p.tones := p.tones + [Transmit(p.chains.rad, p.txcalMult)];
  }

  /**
  The tone and the twelve commands, between setup and cleanup.  On success the
  measured coefficients go into the compensation cells, the same pair of LO
  values into both places.
  */
  method TxMeasure(p: Phy, resumed: bool, result: TxResult) returns (error: bool)
    requires Room(p.hold, 1) && TxReady(p)
    modifies p`hold, p`bbcfg, p`en, p`vals, p`lpfOwned, p`multSave, p`playing, p`chains, p`tones
    ensures CS.Kept(old(p.hold), p.hold) && Pulsed(old(p.bbcfg), p.bbcfg)
    ensures p.tones == if error then old(p.tones) else old(p.tones) + [Transmit(old(p.chains).rad, p.txcalMult)]
    ensures p.en == if !error && old(p.lpfOwned) then Overridden(old(p.en), 0x80, 0, true, 1) else old(p.en)
    ensures error ==> !resumed && p.chains == old(p.chains) && p.multSave == old(p.multSave) && p.lpfOwned == old(p.lpfOwned)
    ensures !error ==> p.multSave.None? && !p.lpfOwned && Compensated(p.chains, result)
    ensures !error ==> p.chains == old(p.chains).(iq := p.chains.iq, lo85 := p.chains.lo85, lo93 := p.chains.lo93,
                                                  m87 := if old(p.multSave).Some? then old(p.multSave).value else old(p.chains).m87)
  {
    if resumed {
      p.RunSamples(false);
      error := false;
    } else {
      error := p.TxTone(false);
    }
    if !error {
      TxCommands(p, old(p.chains).m87);
      p.chains := p.chains.(iq := result.iq);
      p.chains := p.chains.(lo85 := result.lo);
      p.chains := p.chains.(lo93 := result.lo);
      p.StopPlayback();
    }
  }

  /** The override bits a transmit calibration clears, whatever they were. */
  function TxGivenBack(en: Enables, useInt: bool): Enables {
    var en := en.(o1 := Pair(en.o1.c0 - {7}, en.o1.c1 - {7}));
    if useInt then en.(o0 := Pair(en.o0.c0 - {3}, en.o0.c1 - {3})) else en
  }

  lemma TxBits(en: Enables, useInt: bool, stopped: bool)
    ensures var t := TxTaken(en, useInt);
            var t := if stopped then Overridden(t, 0x80, 0, true, 1) else t;
            var t := Overridden(t, 0x80, 0, true, 1);
            (if useInt then Overridden(t, 0x8, 0x3, true, 0) else t) == TxGivenBack(en, useInt)
  {
    OneBit(en.o1.c0, 7);
    OneBit(en.o1.c1, 7);
    OneBit(en.o0.c0, 3);
    OneBit(en.o0.c1, 3);
  }

  lemma OneBit(x: Bits, b: nat)
    ensures x + {b} - {b} == x - {b} && x + {b} - {b} - {b} == x - {b}
  {
  }

  /** b43_nphy_cal_tx_iq_lo, inside its hold and with hang avoidance off. */
  method TxBracket(p: Phy, target: Pair<TxGains.Gains>, result: TxResult) returns (error: bool)
    requires Room(p.hold, 1) && !p.hangAvoid
    modifies p`hold, p`bbcfg, p`en, p`vals, p`lpfOwned, p`multSave, p`playing, p`chains
    modifies p`afectl, p`afeover, p`gain8, p`intc, p`trsw, p`papdEn, p`txRadio, p`tones
    ensures p.tones == if error then old(p.tones) else old(p.tones) + [Transmit(CalGains(target), p.txcalMult)]
    ensures CS.Kept(old(p.hold), p.hold) && p.bbcfg == old(p.bbcfg).(rstcca := false)
    ensures p.en == TxGivenBack(old(p.en), p.useIntTxIqLoCal)
    ensures p.afectl == old(p.afectl) && p.afeover == old(p.afeover) && p.gain8 == old(p.gain8)
    ensures p.intc == old(p.intc) && p.papdEn == old(p.papdEn) && p.txRadio == old(p.txRadio)
    ensures error ==> p.chains == old(p.chains) && p.multSave == old(p.multSave) && p.lpfOwned == old(p.lpfOwned)
    ensures error ==> p.phaseId <= 2
    ensures !error ==> p.multSave.None? && !p.lpfOwned && Compensated(p.chains, result)
    ensures !error ==> p.chains == old(p.chains).(iq := p.chains.iq, lo85 := p.chains.lo85, lo93 := p.chains.lo93,
                                                  m87 := if old(p.multSave).Some? then old(p.multSave).value else old(p.chains).m87)
  {
    hide TxTaken, TxGivenBack, TxReady, Overridden;
    var save := p.chains.rad;
    p.chains := p.chains.(rad := CalGains(target));
    var radio, regs := TxSetup(p);
    error := TxMeasure(p, p.phaseId > 2, result);
    TxPhyCleanup(p, regs);
    if p.useIntTxIqLoCal {
      p.Override(0x8, 0, 0x3, true, 0);
    }
    p.chains := p.chains.(rad := save);
    TxRadioCleanup(p, radio);
    TxBits(old(p.en), p.useIntTxIqLoCal, !error && old(p.lpfOwned));
  }

  /**
  b43_nphy_cal_tx_iq_lo.  Whether the tone could be played or not, everything it
  borrowed is back: gain cells, AFE, BBCFG but for the assessment reset, interface
  control, comparison enables and radio; hang avoidance is as it was.
  */
  method CalTxIqLo(p: Phy, target: Pair<TxGains.Gains>, result: TxResult) returns (error: bool)
    requires Room(p.hold, 2)
    modifies p`hold, p`bbcfg, p`en, p`vals, p`lpfOwned, p`multSave, p`playing, p`chains, p`hangAvoid
    modifies p`afectl, p`afeover, p`gain8, p`intc, p`trsw, p`papdEn, p`txRadio, p`tones
    ensures p.tones == if error then old(p.tones) else old(p.tones) + [Transmit(CalGains(target), p.txcalMult)]
    ensures CS.Kept(old(p.hold), p.hold) && p.bbcfg == old(p.bbcfg).(rstcca := false)
    ensures p.hangAvoid == old(p.hangAvoid)
    ensures p.en == TxGivenBack(old(p.en), p.useIntTxIqLoCal)
    ensures p.afectl == old(p.afectl) && p.afeover == old(p.afeover) && p.gain8 == old(p.gain8)
    ensures p.intc == old(p.intc) && p.papdEn == old(p.papdEn) && p.txRadio == old(p.txRadio)
    ensures error ==> p.chains == old(p.chains) && p.multSave == old(p.multSave) && p.lpfOwned == old(p.lpfOwned)
    ensures error ==> p.phaseId <= 2
    ensures !error ==> p.multSave.None? && !p.lpfOwned && Compensated(p.chains, result)
    ensures !error ==> p.chains == old(p.chains).(iq := p.chains.iq, lo85 := p.chains.lo85, lo93 := p.chains.lo93,
                                                  m87 := if old(p.multSave).Some? then old(p.multSave).value else old(p.chains).m87)
  {
    p.StayInCarrierSearch(true);
    var avoid := p.hangAvoid;
    p.hangAvoid := false;
    error := TxBracket(p, target, result);
    p.hangAvoid := avoid;
    p.StayInCarrierSearch(false);
  }

  // ---------------------------------------------------------------- receive I/Q

  /** tx_rx_cal_phy_saveregs, as the receive calibration of a core fills it. */
  datatype RxSaved = RxSaved(seqCa: SeqCa, afectl: Bits, afeover: Bits, intc: Pair<Bits>, rssio: Pair<nat>, en: Enables,
                             papdEn: Pair<PapdEn>)

  /** RFCTL_RSSIO1 and RFCTL_RSSIO2, where six of the first group's override values are. */
  function Rssio(vals: Registers): Pair<nat> {
    Pair(Value(vals, 0x07A), Value(vals, 0x07D))
  }

  /** The enable registers once the receive setup has taken its overrides. */
  function RxTaken(en: Enables): Enables {
    var en := Overridden(en, 0x8, 0, false, 0);
    var en := Overridden(en, 0x200, 0, false, 1);
    var en := Overridden(en, 0x400, 0, false, 1);
    var en := Overridden(en, 0x1, 0, false, 1);
    var en := Overridden(en, 0x2, 0, false, 2);
    var en := Overridden(en, 0x800, 0, false, 1);
    var en := Overridden(en, 0x80, 0, false, 1);
    var en := Overridden(en, 0x80, 0, false, 1);
    Overridden(en, 0x20, 0, false, 1)
  }

  /** What they hold on both cores, with and without the low-pass bandwidth. */
  const RX_FIRST: set<Setting> := {Setting(0x8, 0, 0), Setting(0x200, 1, 0), Setting(0x400, 1, 1)}
  const RX_SECOND: set<Setting> := {Setting(0x1, 1, 1), Setting(0x2, 2, 1), Setting(0x800, 1, 0)}
  const RX_BANDWIDTH: set<Setting> := {Setting(0x80, 1, 0)}
  const RX_SETTINGS: set<Setting> := RX_FIRST + RX_SECOND + {Setting(0x20, 1, 0)}

  method RxTakeFirst(p: Phy)
    modifies p`en, p`vals
    ensures p.en == Overridden(Overridden(Overridden(old(p.en), 0x8, 0, false, 0), 0x200, 0, false, 1), 0x400, 0, false, 1)
    ensures BothHold(p.vals, RX_FIRST)
  {
    hide BothHold, Overridden;
    Nothing(p.vals);
    p.OverrideBoth(0x8, 0, 0, 0, {});
    p.OverrideBoth(0x200, 0, 0, 1, {} + {Setting(0x8, 0, 0)});
    p.OverrideBoth(0x400, 1, 0, 1, {} + {Setting(0x8, 0, 0)} + {Setting(0x200, 1, 0)});
    assert {} + {Setting(0x8, 0, 0)} + {Setting(0x200, 1, 0)} + {Setting(0x400, 1, 1)} == RX_FIRST;
  }

  method RxTakeSecond(p: Phy)
    requires BothHold(p.vals, RX_FIRST)
    modifies p`en, p`vals
    ensures p.en == Overridden(Overridden(Overridden(old(p.en), 0x1, 0, false, 1), 0x2, 0, false, 2), 0x800, 0, false, 1)
    ensures BothHold(p.vals, RX_FIRST + RX_SECOND)
  {
    hide BothHold, Overridden;
    p.OverrideBoth(0x1, 1, 0, 1, RX_FIRST);
    p.OverrideBoth(0x2, 1, 0, 2, RX_FIRST + {Setting(0x1, 1, 1)});
    p.OverrideBoth(0x800, 0, 0, 1, RX_FIRST + {Setting(0x1, 1, 1)} + {Setting(0x2, 2, 1)});
    assert RX_FIRST + {Setting(0x1, 1, 1)} + {Setting(0x2, 2, 1)} + {Setting(0x800, 1, 0)} == RX_FIRST + RX_SECOND;
  }

  lemma Fewer(vals: Registers, settings: set<Setting>, some: set<Setting>)
    requires BothHold(vals, settings) && some <= settings
    ensures BothHold(vals, some)
  {
  }

  /** The low-pass bandwidth is asked for twice; the second value stays. */
  method RxTakeThird(p: Phy)
    requires BothHold(p.vals, RX_FIRST + RX_SECOND)
    modifies p`en, p`vals
    ensures p.en == Overridden(Overridden(Overridden(old(p.en), 0x80, 0, false, 1), 0x80, 0, false, 1), 0x20, 0, false, 1)
    ensures BothHold(p.vals, RX_SETTINGS + RX_BANDWIDTH)
  {
    hide BothHold, Overridden;
    ghost var m := RX_FIRST + RX_SECOND;
    p.OverrideBoth(0x80, if p.wide then 2 else 0, 0, 1, m);
    Fewer(p.vals, m + {Setting(0x80, 1, if p.wide then 2 else 0)}, m);
    p.OverrideBoth(0x80, 0, 0, 1, m);
    p.OverrideBoth(0x20, 0, 0, 1, m + {Setting(0x80, 1, 0)});
    assert m + {Setting(0x80, 1, 0)} + {Setting(0x20, 1, 0)} == RX_SETTINGS + RX_BANDWIDTH;
  }

  method RxTakeOverrides(p: Phy)
    modifies p`en, p`vals
    ensures p.en == RxTaken(old(p.en)) && BothHold(p.vals, RX_SETTINGS + RX_BANDWIDTH)
  {
    hide BothHold, Overridden;
    RxTakeFirst(p);
    RxTakeSecond(p);
    RxTakeThird(p);
  }

  /** The interface control registers then: the amplifiers of both cores off, the measured core switched to transmit. */
  function RxInterface(intc: Pair<Bits>, core: nat): Pair<Bits> {
    var off := Pair(Intc(intc.c0, Pa, 0), Intc(intc.c1, Pa, 0));
    off.Set(core, Intc(off.Get(core), Trsw, 1))
  }

  /** Transmit on the core, receive on the other; converter, comparison and interface control as the measurement wants them. */
  ghost predicate Aimed(p: Phy, core: nat)
    requires core < 2
    reads p`seqCa, p`afectl, p`afeover, p`papdEn, p`intc
  {
    && p.seqCa.txen == OnCore(core) && p.seqCa.rxdis == OnCore(1 - core)
    && 2 !in p.afectl.Get(core) && 2 in p.afeover.Get(core) && !p.papdEn.c0.compare && !p.papdEn.c1.compare
    && SwitchedOver(p.intc, core)
  }

  /** Both amplifiers overridden and off, the core's switch on transmit. */
  predicate SwitchedOver(intc: Pair<Bits>, core: nat)
    requires core < 2
  {
    && 12 in intc.c0 && 4 !in intc.c0 && 5 !in intc.c0 && 12 in intc.c1 && 4 !in intc.c1 && 5 !in intc.c1
    && 10 in intc.Get(core) && 6 in intc.Get(core) && 7 !in intc.Get(core)
  }

  lemma InterfaceSwitches(intc: Pair<Bits>, core: nat)
    requires core < 2
    ensures SwitchedOver(RxInterface(intc, core), core)
  {
  }

  /** The overrides that last as long as the measurements of a core: all but the low-pass bandwidth, which the tones borrow. */
  ghost predicate Receiving(p: Phy)
    reads p`en, p`vals
  {
    && BothHold(p.vals, RX_SETTINGS) && 3 in p.en.o0.c0 && 3 in p.en.o0.c1 && 1 in p.en.o2.c0 && 1 in p.en.o2.c1
    && {0, 5, 9, 10, 11} <= p.en.o1.c0 && {0, 5, 9, 10, 11} <= p.en.o1.c1
  }

  lemma TakenListens(en: Enables)
    ensures var t := RxTaken(en);
            && 3 in t.o0.c0 && 3 in t.o0.c1 && 1 in t.o2.c0 && 1 in t.o2.c1
            && {0, 5, 7, 9, 10, 11} <= t.o1.c0 && {0, 5, 7, 9, 10, 11} <= t.o1.c1
  {
  }

  /** b43_nphy_rxcal_phy_setup: transmit on the core, receive on the other one. */
  method RxPhySetup(p: Phy, core: nat) returns (s: RxSaved)
    requires core < 2
    modifies p`seqCa, p`afectl, p`afeover, p`intc, p`trsw, p`en, p`vals, p`papdEn
    ensures s == RxSaved(old(p.seqCa), old(p.afectl).Get(core), old(p.afeover).Get(core), old(p.intc), Rssio(old(p.vals)),
                         old(p.en), old(p.papdEn))
    ensures p.papdEn == Uncompared(old(p.papdEn))
    ensures p.seqCa == old(p.seqCa).(txen := OnCore(core), rxdis := OnCore(1 - core))
    ensures p.afectl == old(p.afectl).Set(core, old(p.afectl).Get(core) - {2})
    ensures p.afeover == old(p.afeover).Set(core, old(p.afeover).Get(core) + {2})
    ensures p.en == RxTaken(old(p.en)) && p.intc == RxInterface(old(p.intc), core)
    ensures Aimed(p, core) && Receiving(p) && BothHold(p.vals, RX_BANDWIDTH)
  {
    hide Intc, RxTaken, BothHold, SwitchedOver;
    TakenListens(p.en);
    InterfaceSwitches(p.intc, core);
    s := RxSaved(p.seqCa, p.afectl.Get(core), p.afeover.Get(core), p.intc, Rssio(p.vals), p.en, p.papdEn);
    p.papdEn := p.papdEn.Set(0, p.papdEn.c0.(compare := false));
    p.papdEn := p.papdEn.Set(1, p.papdEn.c1.(compare := false));
    p.seqCa := p.seqCa.(txen := OnCore(core));
    p.seqCa := p.seqCa.(rxdis := OnCore(1 - core));
    p.afectl := p.afectl.Set(core, p.afectl.Get(core) - {2});
    p.afeover := p.afeover.Set(core, p.afeover.Get(core) + {2});
    p.IntcOverride(Pa, 0, 3);
    RxTakeOverrides(p);
    Fewer(p.vals, RX_SETTINGS + RX_BANDWIDTH, RX_SETTINGS);
    Fewer(p.vals, RX_SETTINGS + RX_BANDWIDTH, RX_BANDWIDTH);
    p.IntcOverride(Trsw, 1, core + 1);
  }

  /** b43_nphy_rxcal_phy_cleanup. */
  method RxPhyCleanup(p: Phy, core: nat, s: RxSaved)
    requires core < 2
    modifies p`seqCa, p`afectl, p`afeover, p`intc, p`en, p`vals, p`papdEn
    ensures Rssio(p.vals) == s.rssio
    ensures p.seqCa == s.seqCa && p.intc == s.intc && p.en == s.en && p.papdEn == s.papdEn
    ensures p.afectl == old(p.afectl).Set(core, s.afectl) && p.afeover == old(p.afeover).Set(core, s.afeover)
  {
    p.seqCa := s.seqCa;
    p.afectl := p.afectl.Set(core, s.afectl);
    p.afeover := p.afeover.Set(core, s.afeover);
    p.intc := Pair(s.intc.c0, s.intc.c1);
    p.vals := p.vals[0x07A := s.rssio.c0];
    p.vals := p.vals[0x07D := s.rssio.c1];
    p.en := Enables(s.en.o0, s.en.o1, s.en.o2);
    p.papdEn := Pair(s.papdEn.c0, s.papdEn.c1);
  }

  /** The receive gain word of a ladder step, with a second stage of its own or a trimmed one. */
  function RxWord(idx: nat, biq1: nat): (word: nat)
    requires idx <= RxGainSearch.MAX_INDEX && biq1 <= 10
    ensures word < 0x10000
  {
    RxGainSearch.GainWord(RxGainSearch.LADDER[idx].(biq1 := biq1))
  }

  /** Every step of the ladder drives the tone at this index. */
  const LADDER_INDEX := 10

  /** The chain of a core on that index. */
  function OnLadder(p: Phy, c: ForcedIndex.Chains, core: nat): ForcedIndex.Chains
    reads p`gainTbl, p`iqTbl, p`loTbl
  {
    ForcedIndex.Force(c, core, LADDER_INDEX, p.Target(core, LADDER_INDEX), false)
  }

  /** The gain cells while that chain is on the index: the ladder's gain on its core. */
  function LadderGains(p: Phy, gains: Pair<int>, core: nat): Pair<int>
    reads p`gainTbl
  {
    gains.Set(core, Word(p.gainTbl.Get(core), LADDER_INDEX) / 0x10000)
  }

  /** The multiplier of the ladder's index. */
  function LadderMult(p: Phy, core: nat): nat
    reads p`gainTbl
  {
    Word(p.gainTbl.Get(core), LADDER_INDEX) % 0x100
  }

  lemma GainsOnLadder(p: Phy, c: ForcedIndex.Chains, core: nat)
    requires core < 2
    ensures OnLadder(p, c, core).rad == LadderGains(p, c.rad, core)
    ensures LadderGains(p, LadderGains(p, c.rad, core), core) == LadderGains(p, c.rad, core)
    ensures OnLadder(p, c, core).m87.Get(core) == LadderMult(p, core)
  {
  }

  /** The receive gain override is on for both cores, with this gain word. */
  ghost predicate RxGainOn(p: Phy, word: nat)
    reads p`en, p`vals
  {
    {11, 13, 14} <= p.en.o0.c0 && {11, 13, 14} <= p.en.o0.c1 && RxGainIs(p.vals, 0, word) && RxGainIs(p.vals, 1, word)
  }

  /** The receive gain, which leaves the other overrides alone. */
  method ProgramRxGain(p: Phy, word: nat)
    requires word < 0x10000 && Receiving(p)
    modifies p`en, p`vals
    ensures RxGainOn(p, word) && Receiving(p)
  {
    hide BothHold, Valued, RxGainIs;
    BothKeep(p.vals, 0x800, word % 0x100, 3, false, 0, RX_SETTINGS);
    BothKeep(Valued(p.vals, 0x800, word % 0x100, 3, false, 0), 0x6000, word / 0x100, 3, false, 0, RX_SETTINGS);
    p.OverrideRxGain(word, 3, false);
  }

  lemma BandwidthKeeps(p: Phy, en: Enables, vals: Registers, settings: set<Setting>)
    requires BothHold(vals, settings) && Others(settings, 0x80, 1)
    ensures BothHold(p.LpfTaken(en, vals), settings)
  {
    BothKeep(vals, 0x80, p.ReadLpfCtl(), 0, false, 1, settings);
  }

  /** A tone, at the multiplier the chains are on; of the overrides it touches the low-pass bandwidth only. */
  method PlayTone(p: Phy, ghost settings: set<Setting>)
    requires Room(p.hold, 1) && BothHold(p.vals, settings) && Others(settings, 0x80, 1)
    modifies p`hold, p`bbcfg, p`en, p`vals, p`lpfOwned, p`multSave, p`playing, p`chains
    ensures CS.Kept(old(p.hold), p.hold) && Pulsed(old(p.bbcfg), p.bbcfg)
    ensures SameBut7(old(p.en), p.en) && BothHold(p.vals, settings) && p.chains == old(p.chains) && p.playing
    ensures p.multSave == old(p.multSave) || (old(p.multSave).None? && p.multSave == Some(p.chains.m87))
  {
    hide BothHold, Valued, Others;
    BandwidthKeeps(p, p.en, p.vals, settings);
    var _ := p.TxTone(false);
  }

  /** The end of it. */
  method StopTone(p: Phy, ghost settings: set<Setting>)
    requires Room(p.hold, 1) && BothHold(p.vals, settings) && Others(settings, 0x80, 1)
    modifies p`hold, p`bbcfg, p`en, p`vals, p`lpfOwned, p`multSave, p`playing, p`chains
    ensures CS.Kept(old(p.hold), p.hold) && Pulsed(old(p.bbcfg), p.bbcfg)
    ensures p.multSave.None? && !p.lpfOwned && SameBut7(old(p.en), p.en) && BothHold(p.vals, settings)
    ensures p.chains == old(p.chains).(m87 := if old(p.multSave).Some? then old(p.multSave).value else old(p.chains).m87)
  {
    hide BothHold, Valued, Others;
    BothKeep(p.vals, 0x80, 0, 0, true, 1, settings);
    p.StopPlayback();
  }

  /** The enable registers but for the low-pass bandwidth. */
  ghost predicate SameBut7(en: Enables, en': Enables) {
    && en'.o0 == en.o0 && en'.o2 == en.o2 && en'.o1.c0 - {7} == en.o1.c0 - {7} && en'.o1.c1 - {7} == en.o1.c1 - {7}
  }

  /** The setup of the PHY and of the core's coupler. */
  ghost predicate RxReady(p: Phy, core: nat)
    requires core < 2
    reads p`seqCa, p`afectl, p`afeover, p`papdEn, p`intc, p`en, p`vals, p`pwrup, p`atten, p`bbcfg
  {
    Aimed(p, core) && Receiving(p) && p.pwrup.Get(core) == 0x3 && p.atten.Get(core) == 0x7F && !p.bbcfg.rstrx
  }

  /** The ladder's index forced on one core. */
  method ForceLadder(p: Phy, core: nat)
    requires core < 2 && Room(p.hold, 2) && RxReady(p, core)
    requires p.Quiet()
    modifies p`hold, p`bbcfg, p`chains, p`power, p`adjPwrHw, p`enables, p`afeover, p`papdEn
    ensures CS.Kept(old(p.hold), p.hold) && Pulsed(old(p.bbcfg), p.bbcfg) && RxReady(p, core)
    ensures p.Untouched() && p.chains == OnLadder(p, old(p.chains), core)
  {
    hide Receiving, SwitchedOver;
    p.TxpwrIndex(OnCore(core), LADDER_INDEX, false);
  }

  /** A measurement of a core, at the multiplier of the ladder, with the gains the gain cells ask for and a receive gain. */
  method Listen(p: Phy, core: nat, word: nat)
    requires core < 2 && RxReady(p, core) && RxGainOn(p, word) && p.chains.m87.Get(core) == LadderMult(p, core)
    requires p.playing
    modifies p`tones
    ensures p.tones == old(p.tones) + [Receive(p.chains.rad, core, word)]
  {
    p.tones := p.tones + [Receive(p.chains.rad, core, word)];
  }

  /** A tone of a core and what is read of it, its receive gain already programmed. */
  method Sound(p: Phy, core: nat, word: nat)
    requires core < 2 && Room(p.hold, 1) && RxReady(p, core) && RxGainOn(p, word)
    requires p.chains.m87.Get(core) == LadderMult(p, core)
    modifies p`hold, p`bbcfg, p`en, p`vals, p`lpfOwned, p`multSave, p`playing, p`chains, p`tones
    ensures CS.Kept(old(p.hold), p.hold) && Pulsed(old(p.bbcfg), p.bbcfg) && RxReady(p, core)
    ensures p.multSave.None? && !p.lpfOwned
    ensures p.chains == old(p.chains).(m87 := p.chains.m87)
    ensures old(p.multSave).None? ==> p.chains == old(p.chains)
    ensures p.tones == old(p.tones) + [Receive(old(p.chains).rad, core, word)]
  {
    hide LadderMult;
    StartTone(p, core, word);
    Listen(p, core, word);
    EndTone(p, core);
  }

  /** With the setup and the gain in place, and they stay. */
  method StartTone(p: Phy, core: nat, word: nat)
    requires core < 2 && Room(p.hold, 1) && RxReady(p, core) && RxGainOn(p, word)
    modifies p`hold, p`bbcfg, p`en, p`vals, p`lpfOwned, p`multSave, p`playing, p`chains
    ensures CS.Kept(old(p.hold), p.hold) && Pulsed(old(p.bbcfg), p.bbcfg) && p.chains == old(p.chains)
    ensures RxReady(p, core) && RxGainOn(p, word) && p.playing
    ensures p.multSave == old(p.multSave) || (old(p.multSave).None? && p.multSave == Some(p.chains.m87))
  {
    hide BothHold, Aimed;
    ghost var gain := RxGainSettings(word);
    GainSettings(p, word);
    PlayTone(p, RX_SETTINGS + gain);
    GainSettingsBack(p, word);
    Else(p.en.o1.c0, old(p.en).o1.c0);
    Else(p.en.o1.c1, old(p.en).o1.c1);
  }

  method EndTone(p: Phy, core: nat)
    requires core < 2 && Room(p.hold, 1) && RxReady(p, core)
    modifies p`hold, p`bbcfg, p`en, p`vals, p`lpfOwned, p`multSave, p`playing, p`chains
    ensures CS.Kept(old(p.hold), p.hold) && Pulsed(old(p.bbcfg), p.bbcfg) && RxReady(p, core)
    ensures p.multSave.None? && !p.lpfOwned
    ensures p.chains == old(p.chains).(m87 := if old(p.multSave).Some? then old(p.multSave).value else old(p.chains).m87)
  {
    hide BothHold, Aimed;
    StopTone(p, RX_SETTINGS);
    Else(p.en.o1.c0, old(p.en).o1.c0);
    Else(p.en.o1.c1, old(p.en).o1.c1);
  }

  /** A receive gain word as settings of its two fields. */
  function RxGainSettings(word: nat): set<Setting> {
    {Setting(0x800, 0, word % 0x100), Setting(0x6000, 0, word / 0x100)}
  }

  lemma GainSettings(p: Phy, word: nat)
    requires BothHold(p.vals, RX_SETTINGS) && RxGainOn(p, word)
    ensures BothHold(p.vals, RX_SETTINGS + RxGainSettings(word))
  {
  }

  lemma GainSettingsBack(p: Phy, word: nat)
    requires BothHold(p.vals, RX_SETTINGS + RxGainSettings(word))
    ensures BothHold(p.vals, RX_SETTINGS) && RxGainIs(p.vals, 0, word) && RxGainIs(p.vals, 1, word)
  {
    Fewer(p.vals, RX_SETTINGS + RxGainSettings(word), RX_SETTINGS);
    var a, b := Setting(0x800, 0, word % 0x100), Setting(0x6000, 0, word / 0x100);
    assert a in RX_SETTINGS + RxGainSettings(word) && b in RX_SETTINGS + RxGainSettings(word);
  }

  lemma Else(x: Bits, was: Bits)
    requires x - {7} == was - {7} && {0, 5, 9, 10, 11} <= was
    ensures {0, 5, 9, 10, 11} <= x
  {
    forall b | b in {0, 5, 9, 10, 11} ensures b in x {
      assert b in was - {7};
    }
  }

  /** The tone of a step, its receive gain already programmed. */
  method LadderTone(p: Phy, core: nat, word: nat)
    requires core < 2 && Room(p.hold, 2) && RxReady(p, core) && RxGainOn(p, word)
    requires p.Quiet()
    modifies p`hold, p`bbcfg, p`en, p`vals, p`lpfOwned, p`multSave, p`playing, p`chains, p`tones
    modifies p`power, p`adjPwrHw, p`enables, p`afeover, p`papdEn
    ensures CS.Kept(old(p.hold), p.hold) && Pulsed(old(p.bbcfg), p.bbcfg) && RxReady(p, core)
    ensures p.Untouched() && p.multSave.None? && !p.lpfOwned
    ensures old(p.multSave).None? ==> p.chains == OnLadder(p, old(p.chains), core)
    ensures p.chains.rad == LadderGains(p, old(p.chains).rad, core)
    ensures p.tones == old(p.tones) + [Receive(p.chains.rad, core, word)]
  {
    hide RxReady, OnLadder, LadderGains, LadderMult, RxGainIs;
    GainsOnLadder(p, p.chains, core);
    ForceLadder(p, core);
    Sound(p, core, word);
    GainsOnLadder(p, p.chains, core);
  }

  /** The gain word of a step on the way. */
  function StepWord(idx: nat): (word: nat)
    requires idx <= RxGainSearch.MAX_INDEX
    ensures word < 0x10000
  {
    RxWord(idx, RxGainSearch.LADDER[idx].biq1)
  }

  /** A step of the ladder. */
  method LadderStep(p: Phy, core: nat, here: nat)
    requires core < 2 && here <= RxGainSearch.MAX_INDEX && Room(p.hold, 2) && RxReady(p, core)
    requires p.Quiet()
    modifies p`hold, p`bbcfg, p`en, p`vals, p`lpfOwned, p`multSave, p`playing, p`chains, p`tones
    modifies p`power, p`adjPwrHw, p`enables, p`afeover, p`papdEn
    ensures CS.Kept(old(p.hold), p.hold) && Pulsed(old(p.bbcfg), p.bbcfg) && RxReady(p, core)
    ensures p.Untouched() && p.multSave.None? && !p.lpfOwned
    ensures old(p.multSave).None? ==> p.chains == OnLadder(p, old(p.chains), core)
    ensures p.chains.rad == LadderGains(p, old(p.chains).rad, core)
    ensures p.tones == old(p.tones) + [Receive(p.chains.rad, core, StepWord(here))]
  {
    hide OnLadder, LadderGains, Receiving, RxGainOn, Aimed, RxWord;
    ProgramRxGain(p, RxWord(here, RxGainSearch.LADDER[here].biq1));
    LadderTone(p, core, StepWord(here));
  }

  /** A way up or down the ladder, the reading that decided, and the second stage it led to. */
  datatype Walk = Walk(up: bool, n: nat, at: nat, biq1: nat)

  /** One measurement per step of a walk. */
  ghost predicate Stepped(before: seq<Tone>, after: seq<Tone>, gains: Pair<int>, core: nat, up: bool, n: nat)
    requires forall k :: 0 <= k < n ==> 0 <= RxGainSearch.Visit(up, k) <= RxGainSearch.MAX_INDEX
  {
    && before <= after && |after| == |before| + n
    && forall k :: 0 <= k < n ==> after[|before| + k] == Receive(gains, core, StepWord(RxGainSearch.Visit(up, k)))
  }

  /** One tone per step of the walk. */
  method LadderRuns(p: Phy, core: nat, up: bool, n: nat)
    requires core < 2 && Room(p.hold, 2) && RxReady(p, core)
    requires 1 < n && forall k :: 0 <= k < n ==> 0 <= RxGainSearch.Visit(up, k) <= RxGainSearch.MAX_INDEX
    requires p.Quiet()
    modifies p`hold, p`bbcfg, p`en, p`vals, p`lpfOwned, p`multSave, p`playing, p`chains, p`tones
    modifies p`power, p`adjPwrHw, p`enables, p`afeover, p`papdEn
    ensures CS.Kept(old(p.hold), p.hold) && Pulsed(old(p.bbcfg), p.bbcfg) && RxReady(p, core)
    ensures p.Untouched() && p.multSave.None? && !p.lpfOwned
    ensures old(p.multSave).None? ==> p.chains == OnLadder(p, old(p.chains), core)
    ensures p.chains.rad == LadderGains(p, old(p.chains).rad, core)
    ensures p.chains.m87.Get(core) == LadderMult(p, core)
    ensures Stepped(old(p.tones), p.tones, p.chains.rad, core, up, n)
  {
    hide RxReady, StepWord;
    for k := 0 to n
      invariant CS.Kept(old(p.hold), p.hold) && Pulsed(old(p.bbcfg), p.bbcfg) && RxReady(p, core)
      invariant p.Untouched()
      invariant k == 0 ==> p.chains == old(p.chains) && p.multSave == old(p.multSave)
      invariant k > 0 ==> p.multSave.None? && !p.lpfOwned
      invariant k > 0 && old(p.multSave).None? ==> p.chains == OnLadder(p, old(p.chains), core)
      invariant p.chains.rad == if k == 0 then old(p.chains).rad else LadderGains(p, old(p.chains).rad, core)
      invariant k > 1 ==> p.chains.m87.Get(core) == LadderMult(p, core)
      invariant Stepped(old(p.tones), p.tones, LadderGains(p, old(p.chains).rad, core), core, up, k)
    {
      GainsOnLadder(p, old(p.chains), core);
      GainsOnLadder(p, p.chains, core);
      ForcedIndex.ForceTwice(old(p.chains), core, LADDER_INDEX, p.Target(core, LADDER_INDEX), false);
      LadderStep(p, core, RxGainSearch.Visit(up, k));
    }
  }

  /** A walk as the power readings call for, and the second stage trimmed to its last one. */
  ghost predicate Follows(meter: RxGainSearch.Meter, w: Walk) {
    && RxGainSearch.Walks(meter, w.up, w.n, w.at)
    && var step := RxGainSearch.Visit(w.up, w.at);
       RxGainSearch.Trimmed(w.biq1, step, meter(w.at, step))
  }

  /** The gain word a walk ends with. */
  function FinalWord(w: Walk): (word: nat)
    requires 0 <= RxGainSearch.Visit(w.up, w.at) <= RxGainSearch.MAX_INDEX && w.biq1 <= 10
    ensures word < 0x10000
  {
    RxWord(RxGainSearch.Visit(w.up, w.at), w.biq1)
  }

  /**
  The hardware side of b43_nphy_rxcal_gainctrl: one tone per step of the walk
  and the trimmed gain at the end.  The power readings are an oracle, so the
  walk is taken first.
  */
  method GainControl(p: Phy, core: nat, meter: RxGainSearch.Meter) returns (w: Walk)
    requires core < 2 && Room(p.hold, 2) && RxReady(p, core)
    requires p.Quiet()
    modifies p`hold, p`bbcfg, p`en, p`vals, p`lpfOwned, p`multSave, p`playing, p`chains, p`tones
    modifies p`power, p`adjPwrHw, p`enables, p`afeover, p`papdEn
    ensures CS.Kept(old(p.hold), p.hold) && Pulsed(old(p.bbcfg), p.bbcfg) && RxReady(p, core)
    ensures p.Untouched() && p.multSave.None? && !p.lpfOwned
    ensures old(p.multSave).None? ==> p.chains == OnLadder(p, old(p.chains), core)
    ensures p.chains.rad == LadderGains(p, old(p.chains).rad, core)
    ensures p.chains.m87.Get(core) == LadderMult(p, core)
    ensures Follows(meter, w) && Stepped(old(p.tones), p.tones, p.chains.rad, core, w.up, w.n)
    ensures RxGainSearch.Monotone(meter) ==> RxGainSearch.Highest(meter, RxGainSearch.Visit(w.up, w.at))
    ensures RxGainOn(p, FinalWord(w))
  {
    hide Aimed, Receiving, OnLadder, LadderGains, LadderMult, RxGainOn, RxWord, StepWord, Stepped;
    hide RxGainSearch.Monotone, RxGainSearch.Highest, RxGainSearch.Nearest;
    var optimIdx, optimPwr, up, n, at := RxGainSearch.Walk(meter);
    LadderRuns(p, core, up, n);
    var biq1 := RxGainSearch.Trim(optimIdx, optimPwr);
    ProgramRxGain(p, RxWord(optimIdx, biq1));
    w := Walk(up, n, at, biq1);
  }

  /** What the calibration of a core measures: a tone per step of the walk, and one more at the gain it led to. */
  ghost predicate Walked(meter: RxGainSearch.Meter, before: seq<Tone>, after: seq<Tone>, gains: Pair<int>, core: nat) {
    exists w: Walk :: Follows(meter, w) && WalkedBy(before, after, gains, core, w)
  }

  ghost predicate WalkedBy(before: seq<Tone>, after: seq<Tone>, gains: Pair<int>, core: nat, w: Walk)
    requires forall k :: 0 <= k < w.n ==> 0 <= RxGainSearch.Visit(w.up, k) <= RxGainSearch.MAX_INDEX
    requires w.at < w.n && w.biq1 <= 10
  {
    && |after| > 0 && Stepped(before, after[..|after| - 1], gains, core, w.up, w.n)
    && after[|after| - 1] == Receive(gains, core, FinalWord(w))
  }

  /** All of it at the same gains. */
  lemma WalkedAt(meter: RxGainSearch.Meter, before: seq<Tone>, after: seq<Tone>, gains: Pair<int>, core: nat)
    requires Walked(meter, before, after, gains, core)
    ensures |before| < |after| && MeasuredAt(before, after, gains)
  {
    var w: Walk :| Follows(meter, w) && WalkedBy(before, after, gains, core, w);
    var steps := after[..|after| - 1];
    hide StepWord, FinalWord;
    forall n | |before| <= n < |after| ensures after[n].gains == gains {
      if n < |steps| {
        var k := n - |before|;
        assert 0 <= RxGainSearch.Visit(w.up, k) <= RxGainSearch.MAX_INDEX;
        assert steps[|before| + k].gains == gains;
      }
    }
    assert before <= steps <= after;
  }

  /** The measurement of a core that receives: find the gain, play the tone, take the coefficients. */
  method RxMeasure(p: Phy, core: nat, meter: RxGainSearch.Meter)
    requires core < 2 && Room(p.hold, 2)
    requires RxReady(p, core) && p.Quiet()
    modifies p`hold, p`bbcfg, p`en, p`vals, p`lpfOwned, p`multSave, p`playing, p`chains, p`tones
    modifies p`power, p`adjPwrHw, p`enables, p`afeover, p`papdEn
    ensures CS.Kept(old(p.hold), p.hold) && Pulsed(old(p.bbcfg), p.bbcfg)
    ensures p.Untouched() && p.multSave.None? && !p.lpfOwned
    ensures old(p.multSave).None? ==> p.chains == OnLadder(p, old(p.chains), core)
    ensures p.chains.rad == LadderGains(p, old(p.chains).rad, core)
    ensures Walked(meter, old(p.tones), p.tones, p.chains.rad, core)
  {
    hide OnLadder, LadderGains, LadderMult, RxReady, RxGainSearch.Monotone, RxGainSearch.Highest, RxGainOn, Stepped;
    var w := GainControl(p, core, meter);
    ghost var stepped := p.tones;
    Sound(p, core, FinalWord(w));
    assert p.tones[..|p.tones| - 1] == stepped;
    assert WalkedBy(old(p.tones), p.tones, p.chains.rad, core, w);
  }

  /** With the bit on and power control off, AFE override bit 8 is there on both cores however often it is set. */
  lemma StillForced(afe: Pair<Bits>, core: nat)
    requires core < 2 && AfeForced(afe) == afe
    ensures var a := afe.Set(core, afe.Get(core) + {2}); AfeForced(a) == a
  {
    var x := afe.Get(core);
    assert x + {8} == x;
    assert (x + {2}) + {8} == (x + {8}) + {2};
  }

  /** A core that receives has been measured on the ladder's gain, one that does not has not been. */
  ghost predicate CoreMeasured(p: Phy, meter: RxGainSearch.Meter, before: seq<Tone>, after: seq<Tone>, gains: Pair<int>,
                               core: nat, receives: bool)
    reads p`gainTbl
  {
    if receives then Walked(meter, before, after, LadderGains(p, gains, core), core) else after == before
  }

  /** The coupler of the core, set up for the measurement and put back. */
  method RxThroughCoupler(p: Phy, core: nat, receives: bool, meter: RxGainSearch.Meter)
    requires core < 2 && Room(p.hold, 2) && Aimed(p, core) && Receiving(p) && !p.bbcfg.rstrx
    requires p.Quiet()
    modifies p`hold, p`bbcfg, p`en, p`vals, p`lpfOwned, p`multSave, p`playing, p`chains, p`tones
    modifies p`power, p`adjPwrHw, p`enables, p`afeover, p`papdEn, p`pwrup, p`atten
    ensures CS.Kept(old(p.hold), p.hold) && Pulsed(old(p.bbcfg), p.bbcfg)
    ensures p.Untouched() && p.pwrup == old(p.pwrup) && p.atten == old(p.atten)
    ensures receives ==> p.multSave.None? && !p.lpfOwned
    ensures receives && old(p.multSave).None? ==> p.chains == OnLadder(p, old(p.chains), core)
    ensures !receives ==> p.multSave == old(p.multSave) && p.lpfOwned == old(p.lpfOwned) && p.chains == old(p.chains)
    ensures p.chains.rad == if receives then LadderGains(p, old(p.chains).rad, core) else old(p.chains).rad
    ensures CoreMeasured(p, meter, old(p.tones), p.tones, old(p.chains).rad, core, receives)
  {
    hide Aimed, Receiving, OnLadder, LadderGains, Walked;
    var pwrup, atten := p.pwrup.Get(core), p.atten.Get(core);
    p.pwrup := p.pwrup.Set(core, 0x3);
    p.atten := p.atten.Set(core, 0x7F);
    if receives {
      RxMeasure(p, core, meter);
    }
    p.pwrup := p.pwrup.Set(core, pwrup);
    p.atten := p.atten.Set(core, atten);
  }

  /** The receive calibration of one core: what it takes and what it gives back. */
  method RxCore(p: Phy, core: nat, receives: bool, meter: RxGainSearch.Meter)
    requires core < 2 && Room(p.hold, 2) && !p.bbcfg.rstrx
    requires p.Quiet()
    modifies p`hold, p`bbcfg, p`en, p`vals, p`lpfOwned, p`multSave, p`playing, p`chains, p`tones
    modifies p`power, p`adjPwrHw, p`enables, p`afeover, p`papdEn
    modifies p`seqCa, p`afectl, p`intc, p`trsw, p`pwrup, p`atten
    ensures CS.Kept(old(p.hold), p.hold) && Pulsed(old(p.bbcfg), p.bbcfg)
    ensures Rssio(p.vals) == Rssio(old(p.vals))
    ensures p.Untouched() && p.pwrup == old(p.pwrup) && p.atten == old(p.atten)
    ensures p.en == old(p.en) && p.afectl == old(p.afectl)
    ensures p.seqCa == old(p.seqCa) && p.intc == old(p.intc) && p.papdEn == old(p.papdEn)
    ensures receives ==> p.multSave.None? && !p.lpfOwned
    ensures receives && old(p.multSave).None? ==> p.chains == OnLadder(p, old(p.chains), core)
    ensures !receives ==> p.multSave == old(p.multSave) && p.lpfOwned == old(p.lpfOwned) && p.chains == old(p.chains)
    ensures p.chains.rad == if receives then LadderGains(p, old(p.chains).rad, core) else old(p.chains).rad
    ensures CoreMeasured(p, meter, old(p.tones), p.tones, old(p.chains).rad, core, receives)
  {
    hide RxTaken, RxInterface, OnLadder, CoreMeasured, LadderGains, Aimed, Receiving, BothHold;
    var regs := RxPhySetup(p, core);
    StillForced(old(p.afeover), core);
    RxThroughCoupler(p, core, receives, meter);
    RxPhyCleanup(p, core, regs);
  }

  /** The enable bits a receive calibration clears on its way out. */
  function RxGivenBack(en: Enables): Enables {
    Overridden(Overridden(en, 0x800, 3, true, 0), 0x6000, 3, true, 0)
  }

  /** A core is calibrated if its own bit of the receive enable field is set, core 0 the lowest. */
  predicate Receives(seqCa: SeqCa, core: nat) {
    if core == 0 then seqCa.rxen % 2 == 1 else seqCa.rxen / 2 % 2 == 1
  }

  /** Put together from its bits, the field calls for core 0 by the lowest one and for core 1 by the next, and no other counts. */
  lemma ReceivesOwnBit(seqCa: SeqCa, bit0: nat, bit1: nat, others: nat)
    requires bit0 < 2 && bit1 < 2 && seqCa.rxen == bit0 + 2 * bit1 + 4 * others
    ensures (Receives(seqCa, 0) <==> bit0 == 1) && (Receives(seqCa, 1) <==> bit1 == 1)
  {
    assert seqCa.rxen / 2 == bit1 + 2 * others;
  }

  /** Where a receive calibration leaves the chains: the receiving ones on the ladder's index, but for the gain cells. */
  function RxLeaves(p: Phy, c: ForcedIndex.Chains, gains: Pair<int>, seqCa: SeqCa): ForcedIndex.Chains
    reads p`gainTbl, p`iqTbl, p`loTbl
  {
    var c0 := c.(rad := gains);
    var c1 := if Receives(seqCa, 0) then OnLadder(p, c0, 0) else c0;
    var c2 := if Receives(seqCa, 1) then OnLadder(p, c1, 1) else c1;
    c2.(rad := c.rad)
  }

  /** Core 0 measured, then core 1, starting with these gains in the gain cells. */
  ghost predicate RxMeasured(p: Phy, meters: Pair<RxGainSearch.Meter>, before: seq<Tone>, after: seq<Tone>, gains: Pair<int>,
                             seqCa: SeqCa)
    reads p`gainTbl
  {
    exists middle ::
      && CoreMeasured(p, meters.c0, before, middle, gains, 0, Receives(seqCa, 0))
      && CoreMeasured(p, meters.c1, middle, after, if Receives(seqCa, 0) then LadderGains(p, gains, 0) else gains, 1,
                      Receives(seqCa, 1))
  }

  /** Both cores, with the calibration gains in the gain cells. */
  method RxCores(p: Phy, target: Pair<TxGains.Gains>, meters: Pair<RxGainSearch.Meter>)
    requires Room(p.hold, 2) && !p.bbcfg.rstrx
    requires p.Quiet()
    modifies p`hold, p`bbcfg, p`en, p`vals, p`lpfOwned, p`multSave, p`playing, p`chains, p`tones
    modifies p`power, p`adjPwrHw, p`enables, p`afeover, p`papdEn
    modifies p`seqCa, p`afectl, p`intc, p`trsw, p`pwrup, p`atten
    ensures CS.Kept(old(p.hold), p.hold) && Pulsed(old(p.bbcfg), p.bbcfg)
    ensures Rssio(p.vals) == Rssio(old(p.vals))
    ensures p.Untouched() && p.pwrup == old(p.pwrup) && p.atten == old(p.atten)
    ensures p.en == old(p.en) && p.afectl == old(p.afectl)
    ensures p.seqCa == old(p.seqCa) && p.intc == old(p.intc) && p.papdEn == old(p.papdEn)
    ensures old(p.multSave).None? ==> p.multSave.None?
    ensures RxMeasured(p, meters, old(p.tones), p.tones, CalGains(target), old(p.seqCa))
    ensures old(p.multSave).None? ==>
              p.chains.(rad := old(p.chains).rad) == RxLeaves(p, old(p.chains), CalGains(target), old(p.seqCa))
  {
    hide OnLadder, CoreMeasured, LadderGains;
    p.chains := p.chains.(rad := CalGains(target));
    var state := p.seqCa;
    RxCore(p, 0, Receives(state, 0), meters.c0);
    ghost var middle := p.tones;
    RxCore(p, 1, Receives(state, 1), meters.c1);
    assert CoreMeasured(p, meters.c0, old(p.tones), middle, CalGains(target), 0, Receives(state, 0));
  }

  /** What follows the two cores. */
  method RxFinish(p: Phy, bbcfg: BbCfg, rad: Pair<int>)
    modifies p`bbcfg, p`en, p`vals, p`chains
    ensures p.bbcfg == bbcfg.(rstcca := false) && p.en == RxGivenBack(old(p.en))
    ensures p.chains == old(p.chains).(rad := rad) && Rssio(p.vals) == Rssio(old(p.vals))
  {
    hide Valued, Value;
    p.bbcfg := bbcfg;
    p.ResetCca();
    ghost var gains: set<nat> := {0x07B, 0x07E, 0x348, 0x349};
    ValuedOutside(p.vals, 0x800, 0, 3, true, 0, gains);
    ValuedOutside(Valued(p.vals, 0x800, 0, 3, true, 0), 0x6000, 0, 3, true, 0, gains);
    p.OverrideRxGain(0, 3, true);
    p.chains := p.chains.(rad := rad);
  }

  /** The calibration inside its hold. */
  method RxHeld(p: Phy, target: Pair<TxGains.Gains>, meters: Pair<RxGainSearch.Meter>, bbcfg: BbCfg)
    requires Room(p.hold, 2) && !p.bbcfg.rstrx
    requires p.Quiet()
    modifies p`hold, p`bbcfg, p`en, p`vals, p`lpfOwned, p`multSave, p`playing, p`chains, p`tones
    modifies p`power, p`adjPwrHw, p`enables, p`afeover, p`papdEn
    modifies p`seqCa, p`afectl, p`intc, p`trsw, p`pwrup, p`atten
    ensures CS.Kept(old(p.hold), p.hold) && p.bbcfg == bbcfg.(rstcca := false)
    ensures Rssio(p.vals) == Rssio(old(p.vals))
    ensures p.Untouched() && p.pwrup == old(p.pwrup) && p.atten == old(p.atten)
    ensures p.en == RxGivenBack(old(p.en)) && p.afectl == old(p.afectl)
    ensures p.seqCa == old(p.seqCa) && p.intc == old(p.intc) && p.papdEn == old(p.papdEn)
    ensures p.chains.rad == old(p.chains).rad
    ensures old(p.multSave).None? ==> p.multSave.None?
    ensures RxMeasured(p, meters, old(p.tones), p.tones, CalGains(target), old(p.seqCa))
    ensures old(p.multSave).None? ==> p.chains == RxLeaves(p, old(p.chains), CalGains(target), old(p.seqCa))
  {
    var save := p.chains.rad;
    RxCores(p, target, meters);
    RxFinish(p, bbcfg, save);
  }

  /**
  b43_nphy_rev3_cal_rx_iq with power control off.  Per core it hands the PHY
  over and takes it back; at the end all it has touched is as before, except
  that the receive gain overrides are off, the assessment reset is clear, and
  the receiving chains have been left on the ladder's index.
  */
  method CalRxIq(p: Phy, target: Pair<TxGains.Gains>, meters: Pair<RxGainSearch.Meter>)
    requires Room(p.hold, 3)
    requires p.Quiet()
    modifies p`hold, p`bbcfg, p`en, p`vals, p`lpfOwned, p`multSave, p`playing, p`chains, p`tones
    modifies p`power, p`adjPwrHw, p`enables, p`afeover, p`papdEn
    modifies p`seqCa, p`afectl, p`intc, p`trsw, p`pwrup, p`atten
    ensures CS.Kept(old(p.hold), p.hold) && p.bbcfg == old(p.bbcfg).(rstcca := false)
    ensures Rssio(p.vals) == Rssio(old(p.vals))
    ensures p.Untouched() && p.pwrup == old(p.pwrup) && p.atten == old(p.atten)
    ensures p.en == RxGivenBack(old(p.en))
    ensures p.afectl == old(p.afectl)
    ensures p.seqCa == old(p.seqCa) && p.intc == old(p.intc) && p.papdEn == old(p.papdEn)
    ensures p.chains.rad == old(p.chains).rad
    ensures old(p.multSave).None? ==> p.multSave.None?
    ensures RxMeasured(p, meters, old(p.tones), p.tones, CalGains(target), old(p.seqCa))
    ensures old(p.multSave).None? ==> p.chains == RxLeaves(p, old(p.chains), CalGains(target), old(p.seqCa))
  {
    var bbcfg := p.bbcfg;
    p.bbcfg := p.bbcfg.(rstrx := false);
    p.StayInCarrierSearch(true);
    RxHeld(p, target, meters, bbcfg);
    p.StayInCarrierSearch(false);
  }

  // ---------------------------------------------------------------- RSSI

  /** The registers b43_nphy_rev3_rssi_cal stores and puts back, as far as they are part of this model. */
  datatype RssiSaved = RssiSaved(bits: bv3, clip: Pair<int>, intc: Pair<Bits>, afeover: Pair<Bits>, afectl: Pair<Bits>,
                                 en: Enables, trsw: Bits, vals: seq<nat>)

  /** RFCTL_RSSIO1 and 2 and the four RF_CTL_MISC_REG: every register the overrides of the RSSI calibration write. */
  const STORED: seq<nat> := [0x07A, 0x07D, 0x340, 0x341, 0x344, 0x345]

  function Stored(vals: Registers): (s: seq<nat>)
    ensures |s| == |STORED|
  {
    seq(|STORED|, i requires 0 <= i < |STORED| => Value(vals, STORED[i]))
  }

  const WRITTEN: set<nat> := {0x07A, 0x07D, 0x340, 0x341, 0x344, 0x345}

  lemma FreshSwitch(trsw: Bits)
    ensures Intc({}, Trsw, 1) == {6, 10}
    ensures var t := Switched(Switched(trsw, IntcOff), Trsw); 13 in t && 0 in t && 14 !in t && 15 !in t
  {
    assert Shifted(1, 6) == {6};
  }

  method RssiTake(p: Phy) returns (s: RssiSaved)
    modifies p`hold, p`intc, p`trsw
    ensures s == RssiSaved(old(p.hold).bits, old(p.hold).clip, old(p.intc), p.afeover, p.afectl, p.en, old(p.trsw),
                           Stored(p.vals))
    ensures p.hold == old(p.hold).(bits := CS.WAIT_ONLY, clip := CS.CLIP_OFF)
    ensures p.intc == Pair({6, 10}, {6, 10}) && 13 in p.trsw && 0 in p.trsw && 14 !in p.trsw && 15 !in p.trsw
  {
    CS.ClassifierMasks(p.hold.bits, CS.WAIT_ONLY);
    var bits := p.Classifier(0, 0);
    var _ := p.Classifier(7, 4);
    var clip := p.hold.clip;
    p.hold := p.hold.(clip := Pair(0xFFFF, 0xFFFF));
    s := RssiSaved(bits, clip, p.intc, p.afeover, p.afectl, p.en, p.trsw, Stored(p.vals));
    p.IntcOverride(IntcOff, 0, 7);
    p.IntcOverride(Trsw, 1, 7);
    FreshSwitch(old(p.trsw));
  }

  /** The enable registers inside an RSSI calibration. */
  function RssiTaken(en: Enables): Enables {
    var en := Overridden(en, 0x20, 0, false, 1);
    var en := Overridden(en, 0x10, 0, false, 1);
    var en := Overridden(en, 0x08, 0, false, 1);
    var en := Overridden(en, 0x4, 0, false, 1);
    var en := Overridden(en, 0x2, 0, false, 1);
    var en := Overridden(en, 0x1, 0, false, 1);
    var en := Overridden(en, 0x2, 0, false, 2);
    var en := Overridden(en, 0x800, 0, false, 1);
    var en := Overridden(en, 0x80, 0, false, 0);
    var en := Overridden(en, 0x40, 0, false, 0);
    var en := Overridden(en, 0x10, 0, false, 0);
    Overridden(en, 0x20, 0, false, 0)
  }

  /** What they hold on both cores: the receivers' radio down, their converters and the rest of the path up. */
  const RSSI_RADIO: set<Setting> := {Setting(0x20, 1, 0), Setting(0x10, 1, 0), Setting(0x08, 1, 0)}
  const RSSI_PATH: set<Setting> := {Setting(0x4, 1, 1), Setting(0x2, 1, 1), Setting(0x1, 1, 1)}
  const RSSI_REST: set<Setting> := {Setting(0x2, 2, 1), Setting(0x800, 1, 0), Setting(0x80, 0, 1)}
  const RSSI_BAND: set<Setting> := {Setting(0x40, 0, 1), Setting(0x10, 0, 0), Setting(0x20, 0, 1)}
  const RSSI_SETTINGS: set<Setting> := RSSI_RADIO + RSSI_PATH + RSSI_REST + RSSI_BAND

  predicate InWritten(s: Setting) {
    var r := Lookup(s.field, s.group);
    r.Some? && r.value.addr0 in WRITTEN && r.value.addr1 in WRITTEN
  }

  /** Three overrides of both cores, one after the other. */
  method TakeThree(p: Phy, a: Setting, b: Setting, c: Setting, ghost settings: set<Setting>)
    requires a.group < 3 && Lookup(a.field, a.group).Some? && Fits(a.field, a.group, a.value)
    requires b.group < 3 && Lookup(b.field, b.group).Some? && Fits(b.field, b.group, b.value)
    requires c.group < 3 && Lookup(c.field, c.group).Some? && Fits(c.field, c.group, c.value)
    requires InWritten(a) && InWritten(b) && InWritten(c)
    requires BothHold(p.vals, settings) && Others(settings, a.field, a.group)
    requires Others(settings + {a}, b.field, b.group) && Others(settings + {a} + {b}, c.field, c.group)
    modifies p`en, p`vals
    ensures p.en == Overridden(Overridden(Overridden(old(p.en), a.field, 0, false, a.group),
                      b.field, 0, false, b.group), c.field, 0, false, c.group)
    ensures BothHold(p.vals, settings + {a, b, c}) && SameOutside(old(p.vals), p.vals, WRITTEN)
  {
    ValuedOutside(p.vals, a.field, a.value, 0, false, a.group, WRITTEN);
    ghost var first := Valued(p.vals, a.field, a.value, 0, false, a.group);
    ValuedOutside(first, b.field, b.value, 0, false, b.group, WRITTEN);
    ghost var second := Valued(first, b.field, b.value, 0, false, b.group);
    ValuedOutside(second, c.field, c.value, 0, false, c.group, WRITTEN);
    hide BothHold, Overridden, Others, Fits, Lookup, Valued;
    p.OverrideBoth(a.field, a.value, 0, a.group, settings);
    p.OverrideBoth(b.field, b.value, 0, b.group, settings + {a});
    p.OverrideBoth(c.field, c.value, 0, c.group, settings + {a} + {b});
    assert settings + {a} + {b} + {c} == settings + {a, b, c};
  }

  method RssiFirst(p: Phy)
    modifies p`en, p`vals
    ensures p.en == Overridden(Overridden(Overridden(Overridden(Overridden(Overridden(old(p.en),
                      0x20, 0, false, 1), 0x10, 0, false, 1), 0x08, 0, false, 1), 0x4, 0, false, 1),
                      0x2, 0, false, 1), 0x1, 0, false, 1)
    ensures BothHold(p.vals, RSSI_RADIO + RSSI_PATH) && SameOutside(old(p.vals), p.vals, WRITTEN)
  {
    hide BothHold, Overridden;
    Nothing(p.vals);
    TakeThree(p, Setting(0x20, 1, 0), Setting(0x10, 1, 0), Setting(0x08, 1, 0), {});
    assert {} + RSSI_RADIO == RSSI_RADIO;
    TakeThree(p, Setting(0x4, 1, 1), Setting(0x2, 1, 1), Setting(0x1, 1, 1), RSSI_RADIO);
  }

  method RssiSecond(p: Phy)
    requires BothHold(p.vals, RSSI_RADIO + RSSI_PATH)
    modifies p`en, p`vals
    ensures p.en == Overridden(Overridden(Overridden(Overridden(Overridden(Overridden(old(p.en),
                      0x2, 0, false, 2), 0x800, 0, false, 1), 0x80, 0, false, 0), 0x40, 0, false, 0),
                      0x10, 0, false, 0), 0x20, 0, false, 0)
    ensures BothHold(p.vals, RSSI_SETTINGS) && SameOutside(old(p.vals), p.vals, WRITTEN)
  {
    hide BothHold, Overridden;
    TakeThree(p, Setting(0x2, 2, 1), Setting(0x800, 1, 0), Setting(0x80, 0, 1), RSSI_RADIO + RSSI_PATH);
    TakeThree(p, Setting(0x40, 0, 1), Setting(0x10, 0, 0), Setting(0x20, 0, 1), RSSI_RADIO + RSSI_PATH + RSSI_REST);
  }

  /** The overrides of the RSSI calibration: N_RF_CTL_OVER_CMD_RXRF_PU, N_RF_CTL_OVER_CMD_RX_PU and four of the first group. */
  method RssiOverrides(p: Phy)
    modifies p`en, p`vals
    ensures p.en == RssiTaken(old(p.en)) && BothHold(p.vals, RSSI_SETTINGS) && SameOutside(old(p.vals), p.vals, WRITTEN)
  {
    hide BothHold, Overridden;
    RssiFirst(p);
    RssiSecond(p);
  }

  /** The receivers deaf, switched and overridden, as the readings want them. */
  ghost predicate RssiReady(p: Phy, s: RssiSaved)
    reads p`hold, p`en, p`vals, p`intc, p`trsw
  {
    && p.hold.bits == CS.WAIT_ONLY && p.hold.clip == CS.CLIP_OFF
    && p.en == RssiTaken(s.en) && BothHold(p.vals, RSSI_SETTINGS)
    && p.intc == Pair({6, 10}, {6, 10}) && 13 in p.trsw && 0 in p.trsw && 14 !in p.trsw && 15 !in p.trsw
  }

  method RssiGiveBack(p: Phy, s: RssiSaved)
    requires |s.vals| == |STORED|
    modifies p`hold, p`intc, p`trsw, p`en, p`vals, p`afeover, p`afectl
    ensures Stored(p.vals) == s.vals && SameOutside(old(p.vals), p.vals, WRITTEN)
    ensures p.hold == old(p.hold).(bits := s.bits, clip := s.clip)
    ensures p.intc == s.intc && p.afeover == s.afeover && p.afectl == s.afectl && p.en == s.en && p.trsw == s.trsw
  {
    p.intc := Pair(s.intc.c0, s.intc.c1);
    p.afeover := s.afeover;
    p.afectl := s.afectl;
    p.en := Enables(s.en.o0, s.en.o1, s.en.o2);
    p.trsw := s.trsw;
    PutStored(p, s.vals);
    CS.ClassifierMasks(p.hold.bits, s.bits);
    var _ := p.Classifier(7, s.bits);
    p.hold := p.hold.(clip := s.clip);
  }

  method PutStored(p: Phy, vals: seq<nat>)
    requires |vals| == |STORED|
    modifies p`vals
    ensures Stored(p.vals) == vals && SameOutside(old(p.vals), p.vals, WRITTEN)
  {
    for i := 0 to |STORED|
      invariant forall k :: 0 <= k < i ==> Value(p.vals, STORED[k]) == vals[k]
      invariant SameOutside(old(p.vals), p.vals, WRITTEN)
    {
      assert STORED[i] in WRITTEN;
      p.vals := p.vals[STORED[i] := vals[i]];
    }
  }

  /** A receiving core is set up as its readings call for; any other is left alone. */
  ghost predicate Calibrated(p: Phy, core: nat, readings: RssiVcm.Readings, was: RssiVcm.Registers)
    reads p`seqCa, p`rssi
  {
    if Receives(p.seqCa, core) then RssiVcm.Calibrates(readings, p.rssi.Get(core)) else p.rssi.Get(core) == was
  }

  /** One core's voltage and narrow-band offsets, with the receiver deaf and the overrides in place. */
  method RssiNarrow(p: Phy, core: nat, polls: RssiVcm.Polls, s: RssiSaved)
    requires core < 2 && RssiReady(p, s)
    modifies p`rssi
    ensures p.rssi == old(p.rssi).Set(core, p.rssi.Get(core))
    ensures var r, was := p.rssi.Get(core), old(p.rssi).Get(core);
            if Receives(p.seqCa, core) then
              && r == was.(vcm := r.vcm, narrow := r.narrow)
              && RssiVcm.Best(polls, r.vcm) && RssiVcm.Cancels(polls, r.vcm, r.narrow.0, r.narrow.1)
            else r == was
  {
    if Receives(p.seqCa, core) {
      var vcm, regI, regQ := RssiVcm.CalibrateCore(polls);
      p.rssi := p.rssi.Set(core, p.rssi.Get(core).(vcm := vcm));
      p.rssi := p.rssi.Set(core, p.rssi.Get(core).(narrow := (regI, regQ)));
    }
  }

  /** One core's wide-band offsets, likewise. */
  method RssiWide(p: Phy, core: nat, readings: RssiVcm.Readings, s: RssiSaved)
    requires core < 2 && RssiReady(p, s)
    modifies p`rssi
    ensures p.rssi == old(p.rssi).Set(core, p.rssi.Get(core))
    ensures var r, was := p.rssi.Get(core), old(p.rssi).Get(core);
            if Receives(p.seqCa, core) then
              && r == was.(wide1 := r.wide1, wide2 := r.wide2)
              && RssiVcm.FollowsFirst(readings.wide1, r.wide1) && RssiVcm.FollowsFirst(readings.wide2, r.wide2)
            else r == was
  {
    if Receives(p.seqCa, core) {
      var regs := RssiVcm.CalibrateWide(readings.wide1);
      p.rssi := p.rssi.Set(core, p.rssi.Get(core).(wide1 := regs));
      regs := RssiVcm.CalibrateWide(readings.wide2);
      p.rssi := p.rssi.Set(core, p.rssi.Get(core).(wide2 := regs));
    }
  }

  /** The four measurements: both cores' voltages first, then both cores' wide-band detectors. */
  method RssiMeasure(p: Phy, readings: Pair<RssiVcm.Readings>, s: RssiSaved)
    requires RssiReady(p, s)
    modifies p`rssi
    ensures Calibrated(p, 0, readings.c0, old(p.rssi).c0) && Calibrated(p, 1, readings.c1, old(p.rssi).c1)
  {
    hide RssiVcm.Best, RssiVcm.Cancels, RssiVcm.FollowsFirst, RssiReady;
    RssiNarrow(p, 0, readings.c0.narrow, s);
    RssiNarrow(p, 1, readings.c1.narrow, s);
    RssiWide(p, 0, readings.c0, s);
    RssiWide(p, 1, readings.c1, s);
  }

  lemma AllBack(vals: Registers, vals': Registers)
    requires Stored(vals') == Stored(vals) && SameOutside(vals, vals', WRITTEN)
    ensures forall a :: Value(vals', a) == Value(vals, a)
  {
    forall i | 0 <= i < |STORED| ensures Value(vals', STORED[i]) == Value(vals, STORED[i]) {
      assert Stored(vals')[i] == Stored(vals)[i];
    }
    assert WRITTEN == {STORED[0], STORED[1], STORED[2], STORED[3], STORED[4], STORED[5]};
  }

  /**
  b43_nphy_rev3_rssi_cal.  It sets classifier and thresholds without the counted
  hold, so it must, and does, put back exactly what it found, at any depth; what
  stays is each receiving core's voltage and offsets.
  */
  method RssiCal(p: Phy, readings: Pair<RssiVcm.Readings>)
    modifies p`hold, p`intc, p`trsw, p`en, p`vals, p`afeover, p`afectl, p`rssi
    ensures Calibrated(p, 0, readings.c0, old(p.rssi).c0) && Calibrated(p, 1, readings.c1, old(p.rssi).c1)
    ensures p.hold == old(p.hold) && p.intc == old(p.intc) && p.trsw == old(p.trsw)
    ensures p.en == old(p.en) && p.afeover == old(p.afeover) && p.afectl == old(p.afectl)
    ensures forall a :: Value(p.vals, a) == Value(old(p.vals), a)
  {
    hide RssiVcm.Calibrates, RssiTaken, BothHold, Stored;
    var s := RssiTake(p);
    RssiOverrides(p);
    RssiMeasure(p, readings, s);
    RssiGiveBack(p, s);
    AllBack(old(p.vals), p.vals);
  }
}
